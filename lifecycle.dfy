/** Sequences of calls: since every entry point runs to completion before the
    next one starts, the contract's history is a list of calls applied one
    after another, the hand-off's callback being one more call. The lemmas
    here are the invariants that hold along every such history. */
module Lifecycle {
  import opened Types
  import opened Ledger
  import opened Tally
  import opened Motions
  import opened Proceeds
  import opened Settlement

  /** One state-changing entry point with its caller, deposit and arguments. */
  datatype Call =
    | RegisterCall(caller: AccountId, deposit: nat)
    | InitSellMotionCall(caller: AccountId, deposit: nat, salePrice: nat, motionId: MotionId)
    | FinishSaleMotionCall(caller: AccountId, deposit: nat, motionId: MotionId)
    | ResolveSaleCall(handOffSucceeded: bool)
    | WithdrawSaleMotionCall(caller: AccountId, motionId: MotionId)
    | CashoutCall(caller: AccountId, deposit: nat)
    | FtTransferCall(caller: AccountId, deposit: nat, receiverId: AccountId, amount: nat)

  /** The state after one call; a call that aborts leaves it as it was. */
  function Apply(c: Config, s: State, call: Call): State
  {
    match call
    case RegisterCall(caller, deposit) => Register(s, caller, deposit).After(s)
    case InitSellMotionCall(caller, deposit, price, id) => InitSellMotion(s, caller, deposit, price, id).After(s)
    case FinishSaleMotionCall(caller, deposit, id) => FinishSaleMotion(c, s, caller, deposit, id).After(s)
    case ResolveSaleCall(ok) => ResolveSale(s, ok).After(s)
    case WithdrawSaleMotionCall(caller, id) => WithdrawSaleMotion(s, caller, id).After(s)
    case CashoutCall(caller, deposit) => Cashout(c, s, caller, deposit).After(s)
    case FtTransferCall(caller, deposit, receiver, amount) => FtTransfer(s, caller, deposit, receiver, amount).After(s)
  }

  /** The state after a whole history of calls. */
  function Run(c: Config, s: State, calls: seq<Call>): State
    decreases |calls|
  {
    if calls == [] then s else Run(c, Apply(c, s, calls[0]), calls[1..])
  }

  // ---------------------------------------------------------------------------
  // The settlement lock.

  /** A pending hand-off always has a captured payment behind it. */
  ghost predicate LockBacked(s: State)
  {
    s.saleInProgressId.Some? ==> s.cashoutAmount.Some?
  }

  /** The contract is sold: proceeds captured and no hand-off pending. */
  ghost predicate Sold(s: State)
  {
    s.cashoutAmount.Some? && s.saleInProgressId.None?
  }

  /** Every single call keeps a pending hand-off backed by a captured payment. */
  lemma ApplyKeepsLockBacked(c: Config, s: State, call: Call)
    requires LockBacked(s)
    ensures LockBacked(Apply(c, s, call))
  {
  }

  /** Along every history, a pending hand-off has a captured payment behind it. */
  lemma {:induction false} RunKeepsLockBacked(c: Config, s: State, calls: seq<Call>)
    requires LockBacked(s)
    ensures LockBacked(Run(c, s, calls))
    decreases |calls|
  {
    if calls != [] {
      ApplyKeepsLockBacked(c, s, calls[0]);
      RunKeepsLockBacked(c, Apply(c, s, calls[0]), calls[1..]);
    }
  }

  /** In a sold contract every single call keeps it sold at the same proceeds. */
  lemma ApplyKeepsSold(c: Config, s: State, call: Call)
    requires Sold(s)
    ensures Sold(Apply(c, s, call)) && Apply(c, s, call).cashoutAmount == s.cashoutAmount
  {
    if call.FinishSaleMotionCall? {
      CapturedProceedsBlockFinish(c, s, call.caller, call.deposit, call.motionId);
    }
  }

  /** Once sold, always sold: whatever calls follow, the proceeds stay
      captured at the same amount, no hand-off is ever pending again, and
      every `finish_sale_motion` aborts. */
  lemma {:induction false} SoldIsTerminal(c: Config, s: State, calls: seq<Call>)
    requires Sold(s)
    ensures Sold(Run(c, s, calls)) && Run(c, s, calls).cashoutAmount == s.cashoutAmount
    ensures forall caller, deposit, id :: FinishSaleMotion(c, Run(c, s, calls), caller, deposit, id).Abort?
    decreases |calls|
  {
    if calls != [] {
      ApplyKeepsSold(c, s, calls[0]);
      SoldIsTerminal(c, Apply(c, s, calls[0]), calls[1..]);
    } else {
      forall caller, deposit, id ensures FinishSaleMotion(c, s, caller, deposit, id).Abort? {
        CapturedProceedsBlockFinish(c, s, caller, deposit, id);
      }
    }
  }

  /** A successful hand-off makes the contract sold for good. */
  lemma SuccessfulSaleIsFinal(c: Config, s: State, calls: seq<Call>)
    requires ResolveSale(s, true).Done?
    ensures Sold(Run(c, ResolveSale(s, true).next, calls))
    ensures Run(c, ResolveSale(s, true).next, calls).cashoutAmount == s.cashoutAmount
  {
    SoldIsTerminal(c, ResolveSale(s, true).next, calls);
  }

  // ---------------------------------------------------------------------------
  // What can be reached from `init`.

  /** No balance is positive and every motion is a Sale that nobody has voted on. */
  ghost predicate Quiet(s: State)
  {
    && (forall a :: a in s.owners ==> s.owners[a] == 0)
    && (forall id :: id in s.motions ==> s.motions[id].Sale? && s.motions[id].sale.votes == Votes([], [], []))
  }

  /** Every single call keeps balances at 0 and motions ballot-free. */
  lemma ApplyKeepsQuiet(c: Config, s: State, call: Call)
    requires Quiet(s)
    ensures Quiet(Apply(c, s, call))
  {
    match call
    case FtTransferCall(caller, deposit, receiver, amount) =>
      assert Transfer(s.owners, caller, receiver, amount).Err?;
    case _ =>
  }

  /** Nothing mints shares and nothing casts a ballot: along every history
      from `init`, every balance is 0, every motion is a Sale with no ballots,
      and a pending hand-off has a captured payment behind it. */
  lemma {:induction false} ReachableStatesAreQuiet(c: Config, s: State, calls: seq<Call>)
    requires Quiet(s) && LockBacked(s)
    ensures Quiet(Run(c, s, calls)) && LockBacked(Run(c, s, calls))
    decreases |calls|
  {
    if calls != [] {
      ApplyKeepsQuiet(c, s, calls[0]);
      ApplyKeepsLockBacked(c, s, calls[0]);
      ReachableStatesAreQuiet(c, Apply(c, s, calls[0]), calls[1..]);
    }
  }

  /** Consequently, from `init` the vote never decides anything: a
      `finish_sale_motion` that passes its guards is approved exactly when
      both thresholds are 0, and every `cashout` pays 0. */
  lemma ReachableVotesAndCashoutsAreEmpty(c: Config, calls: seq<Call>, caller: AccountId, deposit: nat, id: MotionId)
    ensures var s := Run(c, Init(), calls);
      FinishSaleMotion(c, s, caller, deposit, id).Done? ==>
        (FinishSaleMotion(c, s, caller, deposit, id).value <==> c.participationThreshold == 0 && c.acceptanceThreshold == 0)
    ensures var s := Run(c, Init(), calls);
      Cashout(c, s, caller, deposit).Done? ==> Cashout(c, s, caller, deposit).value == 0
  {
    ReachableStatesAreQuiet(c, Init(), calls);
    var s := Run(c, Init(), calls);
    if Cashout(c, s, caller, deposit).Done? {
      PayoutAtMostExactShare(s.cashoutAmount.value, WeightOf(s.owners, caller), c.totalSupply);
    }
  }

  /** The double deposit refund happens along a history from `init`: with
      both thresholds at 0 (the only setting in which a sale can be approved
      from `init`), the receiver opens a motion, finishes it, the hand-off
      succeeds, and withdrawing the sold motion refunds its one deposit again. */
  lemma DepositRefundedTwiceFromInit(c: Config, receiver: AccountId, price: nat, id: MotionId)
    requires c.participationThreshold == 0 && c.acceptanceThreshold == 0
    ensures var calls := [InitSellMotionCall(receiver, MOTION_DEPOSIT, price, id),
                          FinishSaleMotionCall(receiver, price + 1, id),
                          ResolveSaleCall(true),
                          WithdrawSaleMotionCall(receiver, id)];
      Run(c, Init(), calls).outbox
        == [NftHandOff(c.nftContractId, receiver, c.nftTokenId, NFT_TRANSFER_DEPOSIT),
            Pay(receiver, MOTION_DEPOSIT, MotionDepositRefund),
            Pay(receiver, MOTION_DEPOSIT, MotionDepositRefund)]
  {
    var calls := [InitSellMotionCall(receiver, MOTION_DEPOSIT, price, id),
                  FinishSaleMotionCall(receiver, price + 1, id),
                  ResolveSaleCall(true),
                  WithdrawSaleMotionCall(receiver, id)];
    var s1 := Apply(c, Init(), calls[0]);
    var s2 := Apply(c, s1, calls[1]);
    assert s2.saleInProgressId == Some(id) && s2.cashoutAmount == Some(price + 1);
    assert s2.outbox == [NftHandOff(c.nftContractId, receiver, c.nftTokenId, NFT_TRANSFER_DEPOSIT)];
    SuccessfulSaleThenWithdrawRefundsDepositTwice(s2, id, receiver);
    var s3 := Apply(c, s2, calls[2]);
    var s4 := Apply(c, s3, calls[3]);
    assert Run(c, s4, []) == s4;
    assert Run(c, s3, calls[3..]) == s4;
    assert Run(c, s2, calls[2..]) == s4;
    assert Run(c, s1, calls[1..]) == s4;
  }

  // ---------------------------------------------------------------------------
  // Proceeds after the sale.

  /** Total paid out by `cashout` so far. */
  function CashoutsPaid(outbox: seq<Effect>): nat
  {
    if outbox == [] then 0
    else
      var last := outbox[|outbox| - 1];
      CashoutsPaid(outbox[..|outbox| - 1]) + if last.Pay? && last.purpose == CashoutPayout then last.amount else 0
  }

  /** Appending one effect adds its amount when it is a cashout payment. */
  lemma CashoutsPaidAppend(outbox: seq<Effect>, e: Effect)
    ensures CashoutsPaid(outbox + [e]) == CashoutsPaid(outbox) + if e.Pay? && e.purpose == CashoutPayout then e.amount else 0
  {
    assert (outbox + [e])[..|outbox|] == outbox;
  }

  /** The one call that creates shares: a self-transfer of a positive amount. */
  predicate MintsShares(call: Call)
  {
    call.FtTransferCall? && call.caller == call.receiverId && call.amount > 0
  }

  /** In a sold contract with proceeds C and supply T, the quantity
      (cashouts paid) * T + C * (sum of balances) never grows. */
  ghost function Obligation(c: Config, s: State): nat
    requires s.cashoutAmount.Some?
  {
    CashoutsPaid(s.outbox) * c.totalSupply + s.cashoutAmount.value * SumOf(s.owners)
  }

  /** Trading a balance `w` for a payout `p` with p * T <= C * w does not raise the obligation. */
  lemma TradeKeepsObligation(paid: nat, payout: nat, totalSupply: nat, proceeds: nat, rest: nat, w: nat)
    requires payout * totalSupply <= proceeds * w
    ensures (paid + payout) * totalSupply + proceeds * rest <= paid * totalSupply + proceeds * (rest + w)
  {
    assert (paid + payout) * totalSupply == paid * totalSupply + payout * totalSupply;
    assert proceeds * (rest + w) == proceeds * rest + proceeds * w;
  }

  /** A cashout trades the caller's balance for a payout no larger than its exact share. */
  lemma CashoutKeepsObligation(c: Config, s: State, caller: AccountId, deposit: nat)
    requires Sold(s) && c.totalSupply > 0
    ensures Obligation(c, Cashout(c, s, caller, deposit).After(s)) <= Obligation(c, s)
  {
    var r := Cashout(c, s, caller, deposit);
    if r.Done? {
      var t := r.next;
      var w := WeightOf(s.owners, caller);
      PayoutAtMostExactShare(s.cashoutAmount.value, w, c.totalSupply);
      SumOfUpdate(s.owners, caller, 0);
      CashoutsPaidAppend(s.outbox, Pay(caller, r.value, CashoutPayout));
      TradeKeepsObligation(CashoutsPaid(s.outbox), r.value, c.totalSupply, s.cashoutAmount.value, SumOf(t.owners), w);
    }
  }

  /** Registering can only lower the balances (an existing one is reset to 0). */
  lemma RegisterKeepsObligation(c: Config, s: State, caller: AccountId, deposit: nat)
    requires Sold(s)
    ensures Obligation(c, Register(s, caller, deposit).After(s)) <= Obligation(c, s)
  {
    var t := Register(s, caller, deposit).After(s);
    SumOfUpdate(s.owners, caller, 0);
    MulMonotone(SumOf(t.owners), SumOf(s.owners), s.cashoutAmount.value);
  }

  /** A transfer that mints nothing keeps the sum of balances. */
  lemma FtTransferKeepsObligation(c: Config, s: State, caller: AccountId, deposit: nat, receiver: AccountId, amount: nat)
    requires Sold(s) && !(caller == receiver && amount > 0)
    ensures Obligation(c, FtTransfer(s, caller, deposit, receiver, amount).After(s)) == Obligation(c, s)
  {
    if FtTransfer(s, caller, deposit, receiver, amount).Done? {
      if caller == receiver {
        SelfTransferMintsShares(s.owners, caller, amount);
      } else {
        TransferBetweenDistinctAccounts(s.owners, caller, receiver, amount);
      }
    }
  }

  /** Withdrawing refunds a motion deposit, which is not a cashout. */
  lemma WithdrawKeepsObligation(c: Config, s: State, caller: AccountId, id: MotionId)
    requires Sold(s)
    ensures Obligation(c, WithdrawSaleMotion(s, caller, id).After(s)) == Obligation(c, s)
  {
    var r := WithdrawSaleMotion(s, caller, id);
    if r.Done? {
      CashoutsPaidAppend(s.outbox, Pay(caller, MOTION_DEPOSIT, MotionDepositRefund));
    }
  }

  /** Every single call that mints no shares keeps the contract sold and the obligation from growing. */
  lemma ApplyKeepsObligation(c: Config, s: State, call: Call)
    requires Sold(s) && c.totalSupply > 0 && !MintsShares(call)
    ensures Sold(Apply(c, s, call))
    ensures Obligation(c, Apply(c, s, call)) <= Obligation(c, s)
  {
    ApplyKeepsSold(c, s, call);
    match call
    case RegisterCall(caller, deposit) => RegisterKeepsObligation(c, s, caller, deposit);
    case WithdrawSaleMotionCall(caller, id) => WithdrawKeepsObligation(c, s, caller, id);
    case CashoutCall(caller, deposit) => CashoutKeepsObligation(c, s, caller, deposit);
    case FtTransferCall(caller, deposit, receiver, amount) =>
      FtTransferKeepsObligation(c, s, caller, deposit, receiver, amount);
    case _ =>
  }

  /** Along every history from a sold state that mints no shares, the
      obligation never grows. */
  lemma {:induction false} RunKeepsObligation(c: Config, s: State, calls: seq<Call>)
    requires Sold(s) && c.totalSupply > 0
    requires forall i :: 0 <= i < |calls| ==> !MintsShares(calls[i])
    ensures Sold(Run(c, s, calls)) && Run(c, s, calls).cashoutAmount == s.cashoutAmount
    ensures Obligation(c, Run(c, s, calls)) <= Obligation(c, s)
    decreases |calls|
  {
    if calls != [] {
      ApplyKeepsObligation(c, s, calls[0]);
      ApplyKeepsSold(c, s, calls[0]);
      RunKeepsObligation(c, Apply(c, s, calls[0]), calls[1..]);
    }
  }

  /** No value is created after the sale: if the balances add up to at most
      the supply when the contract is sold, then, along any history that mints
      no shares, all cashouts together pay at most the captured proceeds. */
  lemma SoldCashoutsWithinProceeds(c: Config, s: State, calls: seq<Call>)
    requires Sold(s) && c.totalSupply > 0 && SumOf(s.owners) <= c.totalSupply
    requires forall i :: 0 <= i < |calls| ==> !MintsShares(calls[i])
    ensures CashoutsPaid(Run(c, s, calls).outbox) <= CashoutsPaid(s.outbox) + s.cashoutAmount.value
  {
    RunKeepsObligation(c, s, calls);
    var t := Run(c, s, calls);
    ObligationBoundsPaid(CashoutsPaid(t.outbox), SumOf(t.owners), CashoutsPaid(s.outbox), SumOf(s.owners),
                         s.cashoutAmount.value, c.totalSupply);
  }

  /** paidAfter * T + C * held' <= paidBefore * T + C * held with held <= T
      gives paidAfter <= paidBefore + C. */
  lemma ObligationBoundsPaid(paidAfter: nat, heldAfter: nat, paidBefore: nat, held: nat, proceeds: nat, totalSupply: nat)
    requires totalSupply > 0 && held <= totalSupply
    requires paidAfter * totalSupply + proceeds * heldAfter <= paidBefore * totalSupply + proceeds * held
    ensures paidAfter <= paidBefore + proceeds
  {
    MulMonotone(held, totalSupply, proceeds);
    assert (paidBefore + proceeds) * totalSupply == paidBefore * totalSupply + proceeds * totalSupply;
    MulCancel(paidAfter, paidBefore + proceeds, totalSupply);
  }
}
