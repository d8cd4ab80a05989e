# Fungifier: fractional NFT ownership with a sale vote, in Dafny

This project models the NEAR contract `Fungifier` (`src/lib.rs`). The contract
holds one NFT and a ledger of shares in it. An intended buyer opens a sale
motion. Once the share-weighted vote reaches two thresholds, the buyer
finalises the motion with a payment. The contract then hands the NFT over and
resolves the result in a callback. A failed hand-off refunds the buyer; a
successful one commits the sale, and each holder may then cash out a pro-rata
part of the proceeds.

The model has two layers:

- **Pure functions** (`Settlement`) map the state before a call to a `Step`.
  A `Step` is `Abort(error)` (the call has no effect) or `Done(reply, next)`.
  The lemmas about these functions state what each call promises.
  `Lifecycle` applies lists of calls one after another and proves invariants
  over every such history.
- **An imperative class** (`Contract.Fungifier`) with the contract's fields.
  Its methods update the ledger and motion maps and the two settlement options
  in place. Each method is proved to reply, and to leave the object, exactly as
  its `Settlement` function says.

Environment inputs become parameters: the caller (`predecessor_account_id`),
the attached deposit, and whether the NFT hand-off succeeded. Each
`Promise::new(to).transfer(amount)` becomes a `Pay` entry appended to a ghost
outbox. The entry is tagged with the code path that sent it: motion-deposit
refund, sale-payment refund, or cashout. The NFT transfer request becomes an
`NftHandOff` entry. Its callback, `resolve_sale`, is a separate call.

Facts the model proves about the code as written:

- `ft_transfer_internal` reads both balances before writing either. So, from
  any state where the account holds shares, a transfer to oneself raises the
  balance by `amount` and creates shares (`Ledger.SelfTransferMintsShares`).
  Its strict `>` check means no one can ever transfer their whole balance
  (`Ledger.Transfer`).
- `init` starts with an empty ledger. Registration writes 0, a transfer needs
  a positive balance, and no entry point adds a ballot. So from `init` no call
  can mint shares: every balance stays 0 and every motion keeps empty ballots
  (`Lifecycle.ReachableStatesAreQuiet`). A sale is then approved exactly when
  both thresholds are 0, and every cashout pays 0
  (`Lifecycle.ReachableVotesAndCashoutsAreEmpty`). The other lemmas are
  therefore stated over arbitrary given states.
- `cashout` does not check `sale_in_progress_id`. In the model, which leaves
  out near-sdk's deposit rejection for methods not marked `#[payable]` (see
  "## Left out"), a holder can cash out while the hand-off is pending. If the
  hand-off then fails, the same captured payment is also refunded to the buyer
  (`Settlement.CashoutDuringPendingSaleThenFailurePaysTwice`).
- `withdraw_sale_motion` does not check `sale_in_progress_id` either. Removing
  the pending motion makes every later `resolve_sale` abort, so the contract
  stays locked (`Settlement.WithdrawDuringPendingSaleStrandsCallback`). One
  would expect the withdrawal of a motion whose sale is pending to fail; the
  model follows the code.
- `withdraw_sale_motion` does not check `cashout_amount`, and a successful
  `resolve_sale` leaves the sold motion stored after refunding its deposit.
  The receiver can then withdraw the sold motion and is refunded the same
  motion deposit a second time
  (`Settlement.SuccessfulSaleThenWithdrawRefundsDepositTwice`). This happens
  along a history from `init` as well
  (`Lifecycle.DepositRefundedTwiceFromInit`).
- Ballots are lists, not sets. The code sums the three ballot lists and
  counts duplicates again (`Tally.RepeatedBallotCountsAgain`).
- Recorded balances are meant to stay within the total supply. From a given
  state where an account holds shares, a self-transfer breaks this. From
  `init` it cannot happen, since every balance stays 0. Once the contract is
  sold, any history without a self-transfer pays out, in all cashouts
  together, at most the captured proceeds
  (`Lifecycle.SoldCashoutsWithinProceeds`).

## Model

| member | source | states |
|---|---|---|
| `Ledger.GetBalance` | src/lib.rs:336-343 | succeeds exactly for a registered account and returns its balance; an unregistered account aborts with NotRegistered naming it |
| `Ledger.Transfer` | src/lib.rs:345-361 | succeeds iff both accounts are registered and the sender holds strictly more than `amount` (so a whole balance never moves); unregistered sender, then receiver, then shortfall decide the error; keeps the set of accounts |
| `Ledger.TransferBetweenDistinctAccounts` | src/lib.rs:345-361 | between distinct accounts the sender loses `amount`, the receiver gains it, every other balance and the ledger total are unchanged |
| `Ledger.SelfTransferMintsShares` | src/lib.rs:351-361 | with sender == receiver the balance becomes b + amount and the ledger total grows by `amount` |
| `Tally.NewVotes` | src/lib.rs:104-110 | a fresh ballot box weighs 0 in participation and approval on every ledger |
| `Tally.SumWeightsAppend` | src/lib.rs:116-126 | the weight of ballot lists laid end to end is the sum of their weights |
| `Tally.TotalIsSumOfLists` | src/lib.rs:112-127 | participation is the weight of accepting plus rejecting plus indifferent ballots |
| `Tally.FavorableAtMostTotal` | src/lib.rs:112-138 | approval never exceeds participation |
| `Tally.SumWeightsPermutation` | src/lib.rs:116-126 | the order of ballots does not matter: equal multisets weigh the same |
| `Tally.SumWeightsFrame` | src/lib.rs:117-118 | only the listed accounts' ledger weights matter, unregistered counting as 0 |
| `Tally.RepeatedBallotCountsAgain` | src/lib.rs:117-118 | ballots are not deduplicated: a repeated accepting ballot adds its weight again to both tallies |
| `Tally.TotalVotes` | src/lib.rs:112-127 | the three accumulation loops compute the participation weight |
| `Tally.FavorableVotes` | src/lib.rs:129-138 | the accumulation loop computes the approval weight |
| `Tally.TwoOwnerExample` | src/lib.rs:112-138 | owners A 600 and B 400: A accepts and B rejects gives 1000 and 600; B alone rejecting gives 400 and 0 |
| `Motions.UnwrapSale` | src/lib.rs:71-76 | succeeds exactly on a Sale and returns its record; any other kind aborts with NotASale |
| `Motions.GetSaleMotion` | src/lib.rs:197-203 | succeeds exactly when the id holds a Sale; a missing id gives NoSuchMotion, a Misc motion NotASale |
| `Proceeds.PayoutAtMostExactShare` | src/lib.rs:318-321 | payout * supply <= proceeds * balance, so a balance within the supply is paid at most the proceeds, and a zero balance is paid 0 |
| `Proceeds.WholeSupplyTakesAll` | src/lib.rs:318-321 | a holder of the whole supply is paid exactly the proceeds |
| `Settlement.RegisterZeroesCaller` | src/lib.rs:169-175 | succeeds iff the deposit is exactly the registration deposit; writes 0 for the caller even over a positive balance, lowering the ledger total by it; nothing else changes |
| `Settlement.InitSellMotionAddsOneSale` | src/lib.rs:178-195 | succeeds iff the deposit is exactly the motion deposit and the id is unused (each failure with its error); adds one Sale to the caller at the price with empty ballots; all else unchanged |
| `Settlement.FinishSaleMotionGuards` | src/lib.rs:210-234 | aborts iff the motion is missing or not a Sale, the caller is not its receiver, deposit < price + 1, a sale is pending or proceeds are captured, with each error in the code's order |
| `Settlement.FinishSaleMotionBelowThreshold` | src/lib.rs:236-250 | past the guards the reply is false iff participation or approval is below its threshold, and then the state is unchanged |
| `Settlement.FinishSaleMotionCommits` | src/lib.rs:252-272 | an approval captures the whole deposit and marks the motion pending in the same step, requests the NFT hand-off to the receiver, keeps the motion stored and leaves ledger and motions untouched |
| `Settlement.ResolveSaleGuards` | src/lib.rs:280-285 | the callback completes iff a sale is pending, its motion is stored and is a Sale, and proceeds are captured; the reply is the hand-off outcome |
| `Settlement.ResolveSaleFailureRefunds` | src/lib.rs:286-292 | a failed hand-off refunds exactly the captured payment to the receiver and clears both the lock and the capture, nothing else changing |
| `Settlement.ResolveSaleSuccessCommits` | src/lib.rs:293-298 | a successful hand-off clears only the lock, keeps the proceeds captured and refunds the motion deposit to the receiver |
| `Settlement.CapturedProceedsBlockFinish` | src/lib.rs:229-234 | while proceeds are captured every finish aborts, whoever calls on whatever motion |
| `Settlement.SuccessfulSaleBlocksFinish` | src/lib.rs:293-298 | after a successful hand-off every finish aborts |
| `Settlement.WithdrawSaleMotionRemovesOnlyIt` | src/lib.rs:302-310 | succeeds iff the id holds a Sale whose receiver is the caller; removes only that motion and refunds one motion deposit; nothing else changes |
| `Settlement.WithdrawDuringPendingSaleStrandsCallback` | src/lib.rs:302-310 | the receiver may withdraw the pending motion, after which the callback aborts whatever the outcome, leaving the lock and the capture in place |
| `Settlement.SuccessfulSaleThenWithdrawRefundsDepositTwice` | src/lib.rs:293-310 | after a successful hand-off refunds the motion deposit, the receiver can still withdraw the sold motion, which refunds the same deposit again; the proceeds stay captured |
| `Settlement.CashoutPaysShareAndZeroes` | src/lib.rs:313-328 | succeeds iff one yoctoNEAR is attached, proceeds are captured and the supply is non-zero; pays at most the exact pro-rata share, zeroes (and if need be registers) the caller, changes no other balance |
| `Settlement.CashoutTwicePaysZero` | src/lib.rs:316-324 | a second cashout straight after the first pays 0 |
| `Settlement.CashoutDuringPendingSaleThenFailurePaysTwice` | src/lib.rs:313-328 | a whole-supply holder cashing out during a pending hand-off that then fails: the captured payment goes out twice |
| `Settlement.FtTransferIsLedgerTransfer` | src/lib.rs:366-379 | aborts without exactly one yoctoNEAR; otherwise it is the ledger transfer from the caller, changing only the ledger |
| `Settlement.FailedSaleExample` | src/lib.rs:252-292 | price 100 and 101 attached, hand-off fails: the receiver is refunded 101 and the state returns to its pre-finish values apart from the outbox |
| `Lifecycle.RunKeepsLockBacked` | src/lib.rs:252-254 | along every history a pending sale has a captured payment |
| `Lifecycle.SoldIsTerminal` | src/lib.rs:229-234 | once sold, any history keeps the same proceeds captured with no sale pending, and every finish aborts |
| `Lifecycle.SuccessfulSaleIsFinal` | src/lib.rs:293-298 | after a successful hand-off the contract stays sold at the captured amount forever |
| `Lifecycle.ReachableStatesAreQuiet` | src/lib.rs:145-165 | from a state with zero balances and empty ballots (as `init` leaves it) every history keeps them so |
| `Lifecycle.ReachableVotesAndCashoutsAreEmpty` | src/lib.rs:236-250 | from `init`, an unguarded finish is approved iff both thresholds are 0, and every cashout pays 0 |
| `Lifecycle.DepositRefundedTwiceFromInit` | src/lib.rs:178-310 | from `init` with both thresholds 0, opening, finishing, a successful hand-off and a withdrawal by the receiver refund one motion deposit twice |
| `Lifecycle.RunKeepsObligation` | src/lib.rs:313-328 | in a sold contract, without self-minting, cashouts paid * supply + proceeds * total balance never grows |
| `Lifecycle.SoldCashoutsWithinProceeds` | src/lib.rs:313-328 | with balances within the supply at sale time, all later cashouts together pay at most the captured proceeds |
| `Contract.Fungifier.Init` | src/lib.rs:145-165 | records the configuration and starts with an empty ledger and store, nothing captured, nothing pending |
| `Contract.Fungifier.Register` | src/lib.rs:169-175 | replies and updates in place as `Settlement.Register` |
| `Contract.Fungifier.InitSellMotion` | src/lib.rs:178-195 | replies and updates in place as `Settlement.InitSellMotion` |
| `Contract.Fungifier.FinishSaleMotion` | src/lib.rs:206-273 | replies and updates in place as `Settlement.FinishSaleMotion`, tallying with the loop methods |
| `Contract.Fungifier.ResolveSale` | src/lib.rs:276-299 | replies and updates in place as `Settlement.ResolveSale` |
| `Contract.Fungifier.WithdrawSaleMotion` | src/lib.rs:302-310 | replies and updates in place as `Settlement.WithdrawSaleMotion` |
| `Contract.Fungifier.Cashout` | src/lib.rs:313-328 | replies with the amount paid and updates in place as `Settlement.Cashout` |
| `Contract.Fungifier.GetBalanceInternal` | src/lib.rs:336-343 | the balance of a registered account; an unregistered one aborts with NotRegistered |
| `Contract.Fungifier.FtTransferInternal` | src/lib.rs:345-364 | reads both balances, then writes both; the ledger afterwards is `Ledger.Transfer`'s result, or unchanged on abort |
| `Contract.Fungifier.FtTransfer` | src/lib.rs:366-379 | replies and updates in place as `Settlement.FtTransfer` |
| `Contract.Fungifier.FtTotalSupply` | src/lib.rs:383-385 | the supply fixed by `init` |
| `Contract.Fungifier.FtBalanceOf` | src/lib.rs:387-389 | the balance of a registered account; an unregistered one aborts with NotRegistered |

## Left out

- The NEAR SDK attribute macros, Borsh/serde derives and `U128` wrappers. These are serialisation and runtime plumbing.
- The `#[private]` check on `resolve_sale`. Here the callback is a call carrying only the hand-off outcome.
- The deposit rejection that near-sdk generates for `&mut self` methods not marked `#[payable]`. This affects `resolve_sale`, `withdraw_sale_motion` and `cashout`. For `cashout` that check would also reject the one yoctoNEAR that `assert_one_yocto` demands. The model keeps only `assert_one_yocto`, as a deposit == 1 guard. With that check every real `cashout` aborts, so the cashout results above, including the double payment during a pending sale, describe the contract's logic without that check.
- Promise scheduling, `.then` chaining, gas amounts and the `ext_nft` / `ext_fungifier` interfaces. They appear only as outbox entries and the boolean callback outcome.
- Whether native transfers succeed, and the contract's own account balance. Transfers are fire-and-forget effects outside the contract's code.
- `env::log_str` messages. They carry no state.
- u128 overflow in the tally, the cashout multiplications and `sale_price + 1`. All amounts are unbounded naturals.
- `MiscMotion` behaviour beyond its variant. No entry point creates or consumes one.
- Vote casting. The contract has no entry point that adds ballots, so motions only ever hold the ballots given to a lemma.
- The `memo` argument of `ft_transfer` and the stored `deployer_id`. The contract never reads either.
