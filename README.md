# Raydium market-making bot, modelled in Dafny

This project models the decision logic of a Solana volume bot for Raydium pools, together with
its companion scripts. The chain, the bundle coordinator, the random number generator and the
clock become parameters. Each network answer, random draw or exception the code could meet is
one value of such a parameter. The model then states and proves what the code does with those
answers.

- **Bundle executor** (executor/jito.ts), module `Jito`:
  - `bundle` cuts its list to a multiple of three;
  - it hands each consecutive triple to `bull_dozer` and returns true when every call did;
  - `bull_dozer` retries until a bundle is accepted or three exceptions are caught;
  - `build_bundle` picks a tip account and adds the tip transaction;
  - the `onBundleResult` promise settles once, with 1 on the first accepted result before its
    30-second timer and with 0 otherwise. It is modelled as the class `BundleResultListener`.
- **Trading entry points** (index.ts and bundle.ts):
  - They differ only in pacing constants and in how a swap is executed. `Settings.Variant`
    selects between them.
  - `Settings` holds the policies both read from the environment: the wallet cap of ten, the
    funding amount, the buy interval, the buy amount rounded to six decimals, the start stagger
    and the pause between cycles.
  - `Distribution` models `distributeSol`: one funding transaction with up to four attempts,
    and the roster saved on success.
  - `Swap` models `buy` and `sell` of index.ts (and the `sell` of gather.ts); `JitoTrade` models
    those of bundle.ts.
  - `TradingLoop` models each wallet's endless buy-then-sell cycle as a state machine, with the
    source's nested loops as the method `RunWallet`.
  - `Startup` models `main`: the main wallet's balance read (whose failure rejects `main`),
    the pool check, then import or distribution, then one loop per wallet.
- **Wind-down script** (gather.ts), module `Gather`. For every roster wallet it:
  - tops the wallet up to 0.01 SOL;
  - sells and closes its token accounts;
  - sweeps what is left back to the main wallet.
- **Recovery script** (wallet_accounts.ts), module `DerivedWallets`:
  - derives wallets from the first 31 bytes of a base key plus one index byte;
  - scans indices 0 to 1999, writing the key of every funded one to a single file. That file
    is the class `KeyFile`.

Every method is proved equal to a specification function of its inputs. The lemmas state what
the source promises about those functions.

Behaviours the model records as the code does them:
- `bull_dozer` only counts exceptions, so a bundle that times out (result 0) is retried without
  limit. A reading where three timeouts also end the loop does not match the code. The model
  follows the code; see `Jito.TimeoutsNeverEndDozer`.
- bundle.ts passes one-transaction lists to `bundle`, which cuts them to nothing. Such a call
  submits nothing and returns true, so a bundle.ts buy or sell that gets a transaction built
  always succeeds and stores the reference `https://solscan.io/tx/true`.
- The per-wallet `buyAmount` produced by import or distribution is never read by the trading
  loop. Each cycle buys `BUY_AMOUNT` or a fresh random amount.
- The pause between cycles scales with the capped wallet count, not with the number of
  wallets trading.

## Model

| member | source | states |
|---|---|---|
| Common.SolscanUrl | index.ts:341 | the stored reference is the explorer link ending in the signature |
| Jito.BundleResultListener.constructor | executor/jito.ts:101-105 | a subscription starts with `first` 0, unresolved and unsettled |
| Jito.BundleResultListener.Resolve | executor/jito.ts:105-123 | the promise settles on the first `resolve` only; later calls change nothing |
| Jito.BundleResultListener.OnResult | executor/jito.ts:112-129 | once resolved, a notification is ignored; before that, an accepted one sets `first` to 1 and resolves with it, and a rejected one changes nothing |
| Jito.BundleResultListener.OnTimeout | executor/jito.ts:107-110 | the timer resolves with the current `first` (0 unless already settled with 1) and marks it resolved |
| Jito.AwaitBundleResult | executor/jito.ts:101-135 | the promise settles with 1 exactly when an accepted result arrived before the timer, with 0 exactly when none did; results after the timer and stream errors change nothing |
| Jito.TipIndex | executor/jito.ts:70 | for a non-empty account list and a draw in [0,1) the index lies in `[0, min(len,4)-1]` |
| Jito.BuildBundle | executor/jito.ts:63-98 | a bundle is built exactly when the tip accounts, the blockhash and `addTipTx` all succeed (an `addTipTx` error is thrown, never sent); it has capacity 4, holds the group and a tip paid by the caller |
| Jito.BullDozer | executor/jito.ts:40-61 | the loop equals the reference run `Dozer` |
| Jito.DozerCounts | executor/jito.ts:42-56 | `retries` counts exactly the caught exceptions among the attempts made |
| Jito.DozerTipCount | executor/jito.ts:45-56 | one tip bundle is recorded per attempt whose tip transaction was built |
| Jito.DozerVerdict | executor/jito.ts:44-60 | true comes from the first landed attempt, false exactly when three exceptions were caught, no verdict only when the observation ends first |
| Jito.DozerTips | executor/jito.ts:73-90 | every bundle sent holds exactly its group, has capacity 4, and its tip is paid by the given keypair |
| Jito.DozerTrueIff | executor/jito.ts:44-53 | true exactly when some attempt lands while fewer than three exceptions were caught before it |
| Jito.DozerFalseAfterThreeExceptions | executor/jito.ts:54-60 | false only after exactly three caught exceptions and no landed attempt |
| Jito.TimeoutsNeverEndDozer | executor/jito.ts:48-57 | when every attempt times out, `retries` stays 0 and the loop never ends, however long it is observed |
| Jito.ThirdAttemptLands | executor/jito.ts:44-56 | two exceptions then an acceptance: true, with three tip bundles built |
| Jito.Trim | executor/jito.ts:19-22 | the list is cut to a prefix whose length is a multiple of three, losing fewer than three transactions |
| Jito.Bundle | executor/jito.ts:17-38 | the grouping loop equals the reference run `BundleSpec` |
| Jito.BundleShape | executor/jito.ts:26-31 | from any point of the loop the groups are the consecutive triples of the cut list in order |
| Jito.BundleCalls | executor/jito.ts:26-28 | each group gets its own `bull_dozer` call, which sees that group's attempts |
| Jito.BundleVerdict | executor/jito.ts:24-33 | `successNum` counts the calls that returned true, so the result is true exactly when all did |
| Jito.BundleGroupsAndVerdict | executor/jito.ts:17-33 | exactly the `floor(len/3)` consecutive triples are submitted, in order, the remainder never; the result is true exactly when every call returned true |
| Jito.ShortListSubmitsNothing | executor/jito.ts:19-33 | a list shorter than three submits nothing and returns true |
| Jito.BundleTipsPaidByCaller | executor/jito.ts:73-85 | every tip is paid by the keypair given to `bundle`, in a bundle of one triple plus the tip |
| Swap.TxRef | index.ts:341 | the reference is "" exactly for the empty signature, the link otherwise |
| Swap.Buy | index.ts:319-351 | `buy` returns a value exactly when it edits the roster; the value is the reference of the executor's signature, stored in a buy edit of the same wallet; it never sleeps |
| Swap.Sell | index.ts:353-396 | `sell` (and gather.ts:125-169) returns a value exactly when it edits the roster, only for a non-empty roster and an executor that returned; the value is the signature's reference, stored in a sell edit of the same wallet; it sleeps one second exactly on an empty roster |
| Swap.BuyEditsWhenExecuted | index.ts:319-351 | `buy` edits the roster exactly when it returns a value, exactly when the balance is non-zero, a transaction was built and the executor returned; the edit stores the reference and the SOL balance less the amount |
| Swap.BuyTruthyIffSignature | index.ts:340-347 | the result is truthy exactly for a non-empty signature; an empty one still edits the roster, storing "" |
| Swap.SellOnEmptyRoster | index.ts:355-359 | with an empty roster `sell` waits one second and returns null, writing nothing |
| Swap.SellEditsWhenExecuted | index.ts:353-396 | `sell` edits the roster exactly when it returns a value, after a token balance, a built transaction, an executor answer and a balance read; it stores the raw lamport balance |
| Swap.GatherSellAgrees | gather.ts:125-169 | the gather.ts `sell` is the index.ts one except that a failed blockhash fetch makes it return null with no write |
| JitoTrade.Buy | bundle.ts:241-286 | the bundle.ts `buy` returns a value exactly when it edits the roster, only for a non-zero balance and a built transaction; the edit is a buy edit of the same wallet storing the returned reference |
| JitoTrade.Sell | bundle.ts:288-343 | the bundle.ts `sell` returns a value exactly when it edits the roster, only for a non-empty roster, a built transaction and a balance read, storing that raw lamport balance; it sleeps one second exactly on an empty roster |
| JitoTrade.OneTransactionBundleIsTrue | bundle.ts:264-269 | `bundle([tx], payer)` submits nothing, pays no tip and returns true for any payer |
| JitoTrade.BuyStoresTrueReference | bundle.ts:241-286 | a bundle.ts buy with a built transaction always returns and stores `https://solscan.io/tx/true`; otherwise it returns null with no write |
| JitoTrade.SellStoresTrueReference | bundle.ts:288-343 | the same for a bundle.ts sell, which also needs a non-empty roster, a token balance and the balance read |
| JitoTrade.EditOnlyAfterTrue | bundle.ts:265-276 | the roster is written only after `bundle` answered true for the built transaction |
| Settings.WalletCount | index.ts:91 | the count is `min(DISTRIBUTE_WALLET_NUM, 10)` |
| Settings.FundingAmount | index.ts:252-254 | each wallet receives `max(DISTRIBUTION_AMOUNT, ADDITIONAL_FEE + BUY_UPPER_AMOUNT)` |
| Settings.Round | index.ts:178 | `Math.round` gives the integer nearest, halves up |
| Settings.BuyInterval | index.ts:178 | `BUY_INTERVAL` lies in `[MIN, MAX]` when `MIN <= MAX` |
| Settings.DrawBetween | index.ts:178 | a draw scaled to `[lo, hi)` lies in it |
| Settings.ToFixed6 | index.ts:184 | `toFixed(6)` gives a whole number of millionths within half a millionth of its input; halves round up for a non-negative input and away from zero for a negative one |
| Settings.BuyAmountFor | index.ts:183-186 | the amount is `BUY_AMOUNT` unless random, else the random draw rounded to six decimals |
| Settings.BuyAmountWithinBounds | index.ts:183-186 | the random amount lies in `[LOWER, UPPER]` |
| Settings.RoundingKeepsGridBounds | index.ts:184 | rounding to six decimals never leaves an interval whose ends are whole millionths |
| Settings.StaggerSpacing | index.ts:175 | wallet 0 starts at once and each later wallet waits `(MAX+MIN)/2` more than the one before |
| Settings.CyclePauseBounds | index.ts:237 | the pause between cycles lies between base + N·MIN and base + N·MAX (base 1000 ms; 4000 ms in bundle.ts:160) |
| Distribution.Generated | index.ts:251 | the loop generates the capped count of wallets, none for a negative count |
| Distribution.DistributeSol | index.ts:242-317 | `distributeSol` (and bundle.ts:165-239) equals the reference `DistributionSpec` |
| Distribution.FirstLandingFrom | index.ts:271-295 | the retry loop stops at exactly the first attempt that gets through |
| Distribution.FundingInstructions | index.ts:246-269 | the transaction holds the two compute-budget instructions then one transfer per wallet, in order, of the funding amount in lamports |
| Distribution.DistributionAttempts | index.ts:270-295 | at most four attempts; null exactly when none gets through, even "" counting as through; bundle.ts (189-214) fetches one blockhash per attempt; only index.ts waits 3 s first |
| Distribution.DistributionSaves | index.ts:297-312 | on success every generated wallet is returned with the funding amount and saved with that plus the fee and null references |
| TradingLoop.RunWallet | index.ts:174-239 | one wallet's loop (bundle.ts:107-162 with its pacing) equals the reference run `WalletRun` |
| TradingLoop.TryBuying | index.ts:197-217 | the buy retry loop is the reference machine run through the buy phase |
| TradingLoop.TrySelling | index.ts:219-237 | the sell retry loop is the reference machine run through the sell phase |
| TradingLoop.StartInv | index.ts:174-176 | a wallet starts idle in cycle 0, with only its stagger wait recorded, and the invariant holds |
| TradingLoop.IdleKeepsInv | index.ts:176-195 | the top of a cycle (interval draw, balance check, amount draw) keeps the invariant |
| TradingLoop.BuySucceeds | index.ts:205-217 | a truthy buy moves to selling, advances `buyNum` (index.ts only), records the attempt and the post-buy wait, and keeps the invariant |
| TradingLoop.BuyFails | index.ts:210-214 | a failed buy counts one more failed attempt of the cycle, waits the back-off, and keeps the invariant |
| TradingLoop.SellSucceeds | index.ts:226-237 | a truthy sell closes the cycle: the next cycle starts with no attempt recorded, every closed cycle was funded, and the counters match the successes |
| TradingLoop.SellFails | index.ts:231-235 | a failed sell counts one more failed sell of the cycle, waits the back-off, and keeps the invariant |
| TradingLoop.BuyKeepsInv | index.ts:199-217 | a buy attempt keeps the loop invariant: at most eleven attempts, counter moved on success only |
| TradingLoop.SellKeepsInv | index.ts:221-237 | a sell attempt keeps the invariant; a success closes the cycle with its pause |
| TradingLoop.StepKeepsInv | index.ts:176-238 | every move of the loop keeps the invariant (pacing, cycle counts, balance checks) |
| TradingLoop.StepKeepsRecorded | index.ts:199-236 | a move only appends, and what it appends is the call the market answers for that cycle and attempt |
| TradingLoop.RunKeepsInv | index.ts:176-238 | the loop keeps the invariant and stops only by returning or at the end of the observed cycles |
| TradingLoop.WalletRunInv | index.ts:174-238 | the trace opens with the stagger wait and then alternates attempts with their waits: 1 s after a failed buy, 1 s (bundle.ts 2 s) after a successful buy or a failed sell, `1000 + N·BUY_INTERVAL` (4000 + …) after a successful sell |
| TradingLoop.BuysAndSellsAlternate | index.ts:198-236 | every completed cycle holds one successful buy and one successful sell; `buyNum`/`sellNum` count successes in index.ts and stay 0 in bundle.ts |
| TradingLoop.WalletExits | index.ts:192-225 | the loop returns only on a failed balance query, a balance below the fee (before any buy), or eleven failed buys or sells of the last cycle; every earlier cycle passed the balance check |
| TradingLoop.AttemptsUseCycleDraws | index.ts:178-226 | every attempt is numbered 0 to 10 and buys the amount drawn at the top of its cycle |
| Startup.LaunchSpec | index.ts:103-175 | `main` (and bundle.ts:59-108) ends in the balance-read failure exactly when that read fails; when it trades, each wallet has one loop run, and a distribution took place exactly when the saved roster was empty |
| Startup.RunBot | index.ts:103-175 | `main` (and bundle.ts:59-108) equals the reference `LaunchSpec` |
| Startup.BalanceReadStopsFirst | index.ts:103-104 | a failed read of the main wallet's balance rejects `main` before the pool check, whatever the pool, roster and network would give; a successful read never ends there |
| Startup.NoPoolStopsFirst | index.ts:135-146 | after the balance read, without routing a missing pool stops `main` before the roster is read or anything is distributed or traded; with routing the lookup does not matter |
| Startup.SavedRosterSkipsDistribution | index.ts:154-172 | a non-empty roster is imported in order with `buyAmount = solBalance - ADDITIONAL_FEE`, whatever the network would answer to a distribution |
| Startup.EmptyRosterDistributes | index.ts:155-165 | an empty roster leads to a distribution; `main` stops exactly when all four attempts fail |
| Startup.EveryWalletTrades | index.ts:174-175 | every wallet runs its own loop, opening with the wait `(MAX+MIN)·i/2` |
| Gather.Gather | gather.ts:28-123 | the script equals the reference `GatherSpec` |
| Gather.GatherWallet | gather.ts:36-121 | one roster entry's `try` block equals `WalletActions` |
| Gather.GatherFromSequential | gather.ts:35-122 | the roster loop's actions are the wallets' actions concatenated in roster order |
| Gather.SequentialEndings | gather.ts:35-121 | from roster position `i` on, the wallets' work ends once per wallet, in roster order |
| Gather.GatherVisitsEveryWallet | gather.ts:29-122 | an empty roster does nothing; otherwise every wallet's work ends, by a sweep or an exception, in roster order, before the next one's starts |
| Gather.OneEndingPerWallet | gather.ts:36-121 | each wallet's work ends with exactly one sweep or abandonment, for that wallet |
| Gather.AccountsOnlySellAndClose | gather.ts:69-101 | the token-account loop only sells and closes |
| Gather.TopUpToMinimum | gather.ts:41-58 | a top-up happens exactly when the balance is below 0.01 SOL and the transfer is confirmed; it is the wallet's first action and transfers `minimum - current`, so the balance becomes exactly the minimum |
| Gather.AccountsSkipped | gather.ts:71-80 | an account is sold and closed exactly when its UI balance is positive and its mint is not wrapped SOL |
| Gather.AccountsCloseAfterSell | gather.ts:86-99 | in the account loop every sell is immediately followed by the close of that account, except a last sell whose close threw |
| Gather.CloseFollowsEverySell | gather.ts:86-99 | every sell is followed by the close of its account, whether or not the sell succeeded, or else by the abandonment of the wallet |
| Gather.SweepLeavesRentAndFee | gather.ts:104-116 | the sweep transfers `balanceAfterSwaps - rentExempt - 5000`, never a negative amount, and happens only when every step before it went through; a balance below rent plus fee ends the wallet without a sweep |
| DerivedWallets.DeriveSeed | wallet_accounts.ts:12-14 | the seed is the base key's first `min(len, 31)` bytes followed by one byte equal to the index modulo 256 |
| DerivedWallets.SeedLayout | wallet_accounts.ts:12-14 | the seed is the first 31 bytes of the base key followed by one byte equal to the index modulo 256: 32 bytes for a key of at least 31 |
| DerivedWallets.SeedsCollide | wallet_accounts.ts:13 | two indices give the same seed exactly when they agree modulo 256 |
| DerivedWallets.ProbeCases | wallet_accounts.ts:18-31 | a probe finds a funded wallet exactly when the balance is positive; indices 256 apart are the same wallet |
| DerivedWallets.KeyFile.Write | wallet_accounts.ts:27-30 | the write replaces the file's contents |
| DerivedWallets.CheckWallet | wallet_accounts.ts:18-34 | the file is written, with the derived secret key, only for a funded wallet |
| DerivedWallets.Scan | wallet_accounts.ts:36-44 | the scan loop equals the reference `Scanned` |
| DerivedWallets.ScanFromStep | wallet_accounts.ts:38-41 | one iteration sleeps, probes, and stops on an exception |
| DerivedWallets.ScanMeetsReference | wallet_accounts.ts:38-41 | the scan probes every index up to the first exception and leaves the file as those probes do |
| DerivedWallets.FirstThrowFinds | wallet_accounts.ts:38-44 | the scan stops at exactly the first index whose probe throws |
| DerivedWallets.FileIsLastFunded | wallet_accounts.ts:24-31 | after the probes the file holds the key of the last funded wallet, or its old contents when none was funded |
| DerivedWallets.ScanStops | wallet_accounts.ts:36-44 | all 2000 indices are probed unless one throws, and then the scan stops right after it |
| DerivedWallets.ScanInOrder | wallet_accounts.ts:38-41 | indices 0, 1, 2, … are probed in order, each after a one-second sleep |
| DerivedWallets.ScanKeepsLastFunded | wallet_accounts.ts:24-41 | the key file ends holding the secret key of the last probed wallet with a positive balance, or unchanged when there is none |

## Left out

- Concurrency: index.ts and bundle.ts run the wallets' loops at the same time (`data.map(async …)`). The model runs them one after another, each against its own market. The module-level `buyNum`/`sellNum` counters are kept per wallet, so their interleaving across wallets is not modelled.
- Endless loops: the trading loop and `bull_dozer`'s retry loop never end by themselves. They are observed for a given number of cycles or attempts, and the result says "still running" when that runs out.
- Exceptions escaping `bundle`'s grouping loop (executor/jito.ts:34-37): `bull_dozer` catches everything its attempts throw. The only remaining sources are the logger and the runtime, so that path is not modelled.
- The outer `try`/`catch` of `distributeSol` (index.ts:313-316): it guards only keypair generation and instruction building, which are treated as not throwing.
- I/O and output: logging, Telegram notifications, the readline prompt and the banner.
  - This includes the low-balance alert (index.ts:188-190) and the "not enough for distribution" warning (index.ts:156-159). Both only report.
  - The value of the main wallet's balance (index.ts:104) is used only for them. A failed read of it is modelled: it rejects `main`.
- JSON files: `readJson` is a roster parameter. `editJson` and `saveDataToFile` are recorded as edits and saved records. A failure of `saveDataToFile` is swallowed by the source and not modelled.
- Foreign libraries are oracles:
  - keypair generation and decoding;
  - ed25519 derivation in `Keypair.fromSeed`;
  - signing, the swap builders, pool lookup, balance and token queries;
  - the legacy executor (a signature, "" on a failed confirmation, or an exception);
  - the block engine client.
- The blockhash cache kept by `startBlockhashUpdater` is not modelled. index.ts signs against whatever it holds.
- Floating point: SOL amounts are exact reals and gather.ts lamports are integers. `solAmount * LAMPORTS_PER_SOL` is not rounded, and `toFixed(6)` rounds the magnitude half up on reals.
- The gather.ts sweep of a negative amount (gather.ts:110) is modelled as a failed transfer, caught by the wallet's `catch`. Whether the transfer encoding or the chain refuses it is not modelled.
- `Math.random` draws are parameters in `[0, 1)`, one per cycle for the interval and one for the amount.
- Settings.BuyAmountWithinBounds: requires `BUY_LOWER_AMOUNT` and `BUY_UPPER_AMOUNT` to be whole millionths. `toFixed(6)` can otherwise round a draw up to half a millionth outside the bounds.
- DerivedWallets.ProbeCases: the balance query is answered per index, so indices 256 apart are proved to derive the same wallet, not to read the same balance.
- The wallet_accounts.ts scan reads its base key from a file and prints what it finds. The base key is a parameter and the output is not modelled.
