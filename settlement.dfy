/** The contract's entry points as functions from the state before a call to
    its outcome: either the call aborts (and, the platform guarantees, has no
    effect at all) or it completes with a reply and the state after it.
    Caller identity and attached deposit are parameters; each
    `Promise::new(to).transfer(amount)` and the NFT hand-off become entries
    appended to the outbox. */
module Settlement {
  import opened Types
  import opened Ledger
  import opened Tally
  import opened Motions
  import opened Proceeds

  /** Which code path sent a native transfer. */
  datatype Purpose = MotionDepositRefund | SalePaymentRefund | CashoutPayout

  /** What a call leaves for the platform to carry out after it returns. */
  datatype Effect =
    | Pay(to: AccountId, amount: nat, purpose: Purpose)
      // the NFT hand-off to `newOwner`, chained with the `resolve_sale` callback
    | NftHandOff(nftContract: AccountId, newOwner: AccountId, tokenId: string, deposit: nat)

  /** Set by `init` and never changed afterwards. */
  datatype Config = Config(
    deployerId: AccountId,
    nftContractId: AccountId,
    nftTokenId: string,
    totalSupply: nat,
    participationThreshold: nat,
    acceptanceThreshold: nat)

  /** Everything the entry points change. */
  datatype State = State(
    owners: Balances,
    motions: map<MotionId, Motion>,
    cashoutAmount: Option<nat>,
    saleInProgressId: Option<MotionId>,
    outbox: seq<Effect>)

  /** Outcome of one call. */
  datatype Step<T> = Done(value: T, next: State) | Abort(error: Error)
  {
    /** The state after the call: an aborted call changes nothing. */
    function After(before: State): State
    {
      if Done? then next else before
    }

    /** What the caller observes. */
    function Reply(): Result<T>
    {
      if Done? then Ok(value) else Err(error)
    }
  }

  /** `init`: empty ledger, no motions, nothing captured, no sale pending. */
  function Init(): State
  {
    State(map[], map[], None, None, [])
  }

  /** `register`: exact deposit, then the caller's balance is written as 0. */
  function Register(s: State, caller: AccountId, deposit: nat): Step<()>
  {
    if deposit != REGISTRATION_DEPOSIT then Abort(WrongRegistrationDeposit)
    else Done((), s.(owners := s.owners[caller := 0]))
  }

  /** `init_sell_motion`: exact deposit, unused id, then a Sale to the caller with no ballots. */
  function InitSellMotion(s: State, caller: AccountId, deposit: nat, salePrice: nat, motionId: MotionId): Step<()>
  {
    if deposit != MOTION_DEPOSIT then Abort(WrongMotionDeposit)
    else if motionId in s.motions then Abort(MotionIdInUse)
    else Done((), s.(motions := s.motions[motionId := Sale(SaleMotion(caller, salePrice, NewVotes()))]))
  }

  /** `finish_sale_motion`: the guards abort; a threshold not reached replies
      false and changes nothing; otherwise the deposit is captured, the sale is
      marked in progress and the NFT hand-off is requested. */
  function FinishSaleMotion(c: Config, s: State, caller: AccountId, deposit: nat, motionId: MotionId): Step<bool>
  {
    match GetSaleMotion(s.motions, motionId)
    case Err(e) => Abort(e)
    case Ok(motion) =>
      if motion.receiverId != caller then Abort(NotReceiver)
      else if deposit < motion.salePrice + 1 then Abort(InsufficientDeposit)
      else if s.saleInProgressId.Some? then Abort(SaleInProgress)
      else if s.cashoutAmount.Some? then Abort(AlreadySold)
      else if TotalWeight(motion.votes, s.owners) < c.participationThreshold then Done(false, s)
      else if FavorableWeight(motion.votes, s.owners) < c.acceptanceThreshold then Done(false, s)
      else
        Done(true, s.(cashoutAmount := Some(deposit),
                      saleInProgressId := Some(motionId),
                      outbox := s.outbox + [NftHandOff(c.nftContractId, motion.receiverId, c.nftTokenId, NFT_TRANSFER_DEPOSIT)]))
  }

  /** `resolve_sale`, the callback of the hand-off: on failure the captured
      payment goes back to the receiver and the contract unlocks; on success
      the proceeds stay captured and the motion deposit goes back. */
  function ResolveSale(s: State, handOffSucceeded: bool): Step<bool>
  {
    if s.saleInProgressId.None? then Abort(NoPendingSale)
    else if s.saleInProgressId.value !in s.motions then Abort(PendingMotionMissing)
    else
      match UnwrapSale(s.motions[s.saleInProgressId.value])
      case Err(e) => Abort(e)
      case Ok(motion) =>
        if s.cashoutAmount.None? then Abort(NothingCaptured)
        else if !handOffSucceeded then
          Done(false, s.(outbox := s.outbox + [Pay(motion.receiverId, s.cashoutAmount.value, SalePaymentRefund)],
                         saleInProgressId := None,
                         cashoutAmount := None))
        else
          Done(true, s.(saleInProgressId := None,
                        outbox := s.outbox + [Pay(motion.receiverId, MOTION_DEPOSIT, MotionDepositRefund)]))
  }

  /** `withdraw_sale_motion`: only the receiver; the motion goes and its deposit is refunded. */
  function WithdrawSaleMotion(s: State, caller: AccountId, motionId: MotionId): Step<()>
  {
    match GetSaleMotion(s.motions, motionId)
    case Err(e) => Abort(e)
    case Ok(motion) =>
      if caller != motion.receiverId then Abort(NotReceiver)
      else Done((), s.(motions := s.motions - {motionId},
                       outbox := s.outbox + [Pay(motion.receiverId, MOTION_DEPOSIT, MotionDepositRefund)]))
  }

  /** `cashout`: one yoctoNEAR attached and proceeds captured; pays the
      caller's fixed-point share of the proceeds, then writes its balance as 0. */
  function Cashout(c: Config, s: State, caller: AccountId, deposit: nat): Step<nat>
  {
    if deposit != ONE_YOCTO then Abort(NotOneYocto)
    else if s.cashoutAmount.None? then Abort(NotSold)
    else if c.totalSupply == 0 then Abort(ZeroSupply)
    else
      var payout := Payout(s.cashoutAmount.value, WeightOf(s.owners, caller), c.totalSupply);
      Done(payout, s.(owners := s.owners[caller := 0],
                      outbox := s.outbox + [Pay(caller, payout, CashoutPayout)]))
  }

  /** `ft_transfer`: one yoctoNEAR attached, then the ledger transfer from the caller. */
  function FtTransfer(s: State, caller: AccountId, deposit: nat, receiverId: AccountId, amount: nat): Step<()>
  {
    if deposit != ONE_YOCTO then Abort(NotOneYocto)
    else
      match Transfer(s.owners, caller, receiverId, amount)
      case Err(e) => Abort(e)
      case Ok(owners) => Done((), s.(owners := owners))
  }

  // ---------------------------------------------------------------------------
  // What each call promises.

  /** `register` succeeds exactly on the exact deposit; it then writes 0 for
      the caller even over a positive balance (whose shares are lost to the
      ledger total) and changes nothing else. */
  lemma RegisterZeroesCaller(s: State, caller: AccountId, deposit: nat)
    ensures Register(s, caller, deposit).Done? <==> deposit == REGISTRATION_DEPOSIT
    ensures Register(s, caller, deposit).Abort? ==> Register(s, caller, deposit).error == WrongRegistrationDeposit
    ensures var r := Register(s, caller, deposit);
      r.Done? ==>
        && r.next.owners.Keys == s.owners.Keys + {caller}
        && r.next.owners[caller] == 0
        && (forall a :: a in s.owners && a != caller ==> r.next.owners[a] == s.owners[a])
        && SumOf(r.next.owners) + WeightOf(s.owners, caller) == SumOf(s.owners)
        && r.next.(owners := s.owners) == s
  {
    SumOfUpdate(s.owners, caller, 0);
  }

  /** `init_sell_motion` succeeds exactly on the exact deposit and an unused
      id; it then adds one Sale motion to the caller at the given price with no
      ballots, and the ledger, the other motions, the settlement state and the
      outbox are unchanged. */
  lemma InitSellMotionAddsOneSale(s: State, caller: AccountId, deposit: nat, salePrice: nat, motionId: MotionId)
    ensures InitSellMotion(s, caller, deposit, salePrice, motionId).Done?
        <==> deposit == MOTION_DEPOSIT && motionId !in s.motions
    ensures deposit != MOTION_DEPOSIT ==> InitSellMotion(s, caller, deposit, salePrice, motionId) == Abort(WrongMotionDeposit)
    ensures deposit == MOTION_DEPOSIT && motionId in s.motions ==>
      InitSellMotion(s, caller, deposit, salePrice, motionId) == Abort(MotionIdInUse)
    ensures var r := InitSellMotion(s, caller, deposit, salePrice, motionId);
      r.Done? ==>
        && r.next.motions.Keys == s.motions.Keys + {motionId}
        && r.next.motions[motionId] == Sale(SaleMotion(caller, salePrice, Votes([], [], [])))
        && (forall id :: id in s.motions ==> r.next.motions[id] == s.motions[id])
        && r.next.(motions := s.motions) == s
  {
  }

  /** The guards of `finish_sale_motion`: a missing or non-Sale motion, a
      caller other than the receiver, a deposit below price + 1, a sale already
      pending and proceeds already captured each abort, in that order of
      precedence; nothing else aborts. */
  lemma FinishSaleMotionGuards(c: Config, s: State, caller: AccountId, deposit: nat, motionId: MotionId)
    ensures var r := FinishSaleMotion(c, s, caller, deposit, motionId);
      r.Abort? <==>
        || GetSaleMotion(s.motions, motionId).Err?
        || s.motions[motionId].sale.receiverId != caller
        || deposit < s.motions[motionId].sale.salePrice + 1
        || s.saleInProgressId.Some?
        || s.cashoutAmount.Some?
    ensures var r := FinishSaleMotion(c, s, caller, deposit, motionId);
      && (motionId !in s.motions ==> r == Abort(NoSuchMotion))
      && (motionId in s.motions && s.motions[motionId].Misc? ==> r == Abort(NotASale))
      && (GetSaleMotion(s.motions, motionId).Ok? ==>
            var m := s.motions[motionId].sale;
            && (m.receiverId != caller ==> r == Abort(NotReceiver))
            && (m.receiverId == caller && deposit < m.salePrice + 1 ==> r == Abort(InsufficientDeposit))
            && (m.receiverId == caller && deposit >= m.salePrice + 1 && s.saleInProgressId.Some? ==>
                  r == Abort(SaleInProgress))
            && (m.receiverId == caller && deposit >= m.salePrice + 1 && s.saleInProgressId.None? && s.cashoutAmount.Some?
                ==> r == Abort(AlreadySold)))
  {
  }

  /** Past the guards, a participation below its threshold or an approval
      below its threshold replies false and leaves the whole state unchanged
      (the attached deposit is not refunded by the contract). */
  lemma FinishSaleMotionBelowThreshold(c: Config, s: State, caller: AccountId, deposit: nat, motionId: MotionId)
    requires FinishSaleMotion(c, s, caller, deposit, motionId).Done?
    ensures var votes := s.motions[motionId].sale.votes;
      FinishSaleMotion(c, s, caller, deposit, motionId).value == false
      <==> (TotalWeight(votes, s.owners) < c.participationThreshold
            || FavorableWeight(votes, s.owners) < c.acceptanceThreshold)
    ensures FinishSaleMotion(c, s, caller, deposit, motionId).value == false ==>
      FinishSaleMotion(c, s, caller, deposit, motionId).next == s
  {
  }

  /** When both thresholds are met, the same call captures the whole deposit
      as proceeds, marks this motion as the sale in progress and requests the
      hand-off of the NFT to the receiver; the motion stays stored, and the
      ledger and the motion store are untouched. */
  lemma FinishSaleMotionCommits(c: Config, s: State, caller: AccountId, deposit: nat, motionId: MotionId)
    requires FinishSaleMotion(c, s, caller, deposit, motionId).Done?
    requires FinishSaleMotion(c, s, caller, deposit, motionId).value
    ensures var r := FinishSaleMotion(c, s, caller, deposit, motionId);
      && s.cashoutAmount.None? && s.saleInProgressId.None?
      && r.next.cashoutAmount == Some(deposit)
      && r.next.saleInProgressId == Some(motionId)
      && r.next.owners == s.owners
      && r.next.motions == s.motions
      && motionId in r.next.motions
      && r.next.outbox == s.outbox + [NftHandOff(c.nftContractId, caller, c.nftTokenId, NFT_TRANSFER_DEPOSIT)]
      && TotalWeight(s.motions[motionId].sale.votes, s.owners) >= c.participationThreshold
      && FavorableWeight(s.motions[motionId].sale.votes, s.owners) >= c.acceptanceThreshold
      && deposit > s.motions[motionId].sale.salePrice
  {
  }

  /** A hand-off that failed: exactly the captured payment is refunded to the
      pending motion's receiver, both the lock and the captured amount are
      cleared, and nothing else changes; the reply is false. */
  lemma ResolveSaleFailureRefunds(s: State, motionId: MotionId, receiver: AccountId, captured: nat)
    requires s.saleInProgressId == Some(motionId) && s.cashoutAmount == Some(captured)
    requires motionId in s.motions && s.motions[motionId].Sale? && s.motions[motionId].sale.receiverId == receiver
    ensures ResolveSale(s, false)
         == Done(false, s.(saleInProgressId := None, cashoutAmount := None,
                           outbox := s.outbox + [Pay(receiver, captured, SalePaymentRefund)]))
  {
  }

  /** A hand-off that succeeded: only the lock is cleared, the proceeds stay
      captured, the receiver gets the motion deposit back; the reply is true. */
  lemma ResolveSaleSuccessCommits(s: State, motionId: MotionId, receiver: AccountId, captured: nat)
    requires s.saleInProgressId == Some(motionId) && s.cashoutAmount == Some(captured)
    requires motionId in s.motions && s.motions[motionId].Sale? && s.motions[motionId].sale.receiverId == receiver
    ensures ResolveSale(s, true)
         == Done(true, s.(saleInProgressId := None,
                          outbox := s.outbox + [Pay(receiver, MOTION_DEPOSIT, MotionDepositRefund)]))
  {
  }

  /** The callback aborts when nothing is pending, when the pending motion is
      gone or not a Sale, or when nothing was captured; otherwise it completes
      and replies whether the hand-off succeeded. */
  lemma ResolveSaleGuards(s: State, handOffSucceeded: bool)
    ensures ResolveSale(s, handOffSucceeded).Done?
        <==> && s.saleInProgressId.Some?
             && s.saleInProgressId.value in s.motions
             && s.motions[s.saleInProgressId.value].Sale?
             && s.cashoutAmount.Some?
    ensures ResolveSale(s, handOffSucceeded).Done? ==> ResolveSale(s, handOffSucceeded).value == handOffSucceeded
    ensures s.saleInProgressId.None? ==> ResolveSale(s, handOffSucceeded) == Abort(NoPendingSale)
  {
  }

  /** Once proceeds are captured, every `finish_sale_motion` aborts, whoever
      calls it, on whatever motion, with whatever deposit. */
  lemma CapturedProceedsBlockFinish(c: Config, s: State, caller: AccountId, deposit: nat, motionId: MotionId)
    requires s.cashoutAmount.Some?
    ensures FinishSaleMotion(c, s, caller, deposit, motionId).Abort?
  {
  }

  /** After a successful hand-off every later `finish_sale_motion` aborts. */
  lemma SuccessfulSaleBlocksFinish(c: Config, s: State, caller: AccountId, deposit: nat, motionId: MotionId)
    requires ResolveSale(s, true).Done?
    ensures FinishSaleMotion(c, ResolveSale(s, true).next, caller, deposit, motionId).Abort?
  {
    CapturedProceedsBlockFinish(c, ResolveSale(s, true).next, caller, deposit, motionId);
  }

  /** `withdraw_sale_motion` succeeds exactly for the receiver of a stored
      Sale; it removes that motion only, refunds the motion deposit once and
      changes nothing else. It does not look at the pending sale. */
  lemma WithdrawSaleMotionRemovesOnlyIt(s: State, caller: AccountId, motionId: MotionId)
    ensures WithdrawSaleMotion(s, caller, motionId).Done?
        <==> GetSaleMotion(s.motions, motionId).Ok? && s.motions[motionId].sale.receiverId == caller
    ensures var r := WithdrawSaleMotion(s, caller, motionId);
      r.Done? ==>
        && r.next.motions.Keys == s.motions.Keys - {motionId}
        && (forall id :: id in s.motions && id != motionId ==> r.next.motions[id] == s.motions[id])
        && r.next.outbox == s.outbox + [Pay(caller, MOTION_DEPOSIT, MotionDepositRefund)]
        && r.next.(motions := s.motions, outbox := s.outbox) == s
  {
  }

  /** Withdrawing the motion whose hand-off is pending is allowed, and it
      strands the callback: whatever the hand-off reports, `resolve_sale` then
      aborts, so the lock is never released and, after a failed hand-off, the
      captured payment is never refunded. */
  lemma WithdrawDuringPendingSaleStrandsCallback(s: State, motionId: MotionId, handOffSucceeded: bool)
    requires s.saleInProgressId == Some(motionId)
    requires motionId in s.motions && s.motions[motionId].Sale?
    ensures WithdrawSaleMotion(s, s.motions[motionId].sale.receiverId, motionId).Done?
    ensures var t := WithdrawSaleMotion(s, s.motions[motionId].sale.receiverId, motionId).next;
      && ResolveSale(t, handOffSucceeded) == Abort(PendingMotionMissing)
      && t.saleInProgressId == s.saleInProgressId
      && t.cashoutAmount == s.cashoutAmount
  {
  }

  /** Neither `resolve_sale` nor `withdraw_sale_motion` removes or marks the
      sold motion: after a successful hand-off has refunded the motion deposit,
      the receiver can still withdraw the motion and is refunded the same
      deposit a second time. */
  lemma SuccessfulSaleThenWithdrawRefundsDepositTwice(s: State, motionId: MotionId, receiver: AccountId)
    requires s.saleInProgressId == Some(motionId) && s.cashoutAmount.Some?
    requires motionId in s.motions && s.motions[motionId].Sale? && s.motions[motionId].sale.receiverId == receiver
    ensures var sold := ResolveSale(s, true);
      && sold.Done?
      && var withdrawn := WithdrawSaleMotion(sold.next, receiver, motionId);
      && withdrawn.Done?
      && withdrawn.next.outbox == s.outbox + [Pay(receiver, MOTION_DEPOSIT, MotionDepositRefund),
                                              Pay(receiver, MOTION_DEPOSIT, MotionDepositRefund)]
      && withdrawn.next.cashoutAmount == s.cashoutAmount
  {
    ResolveSaleSuccessCommits(s, motionId, receiver, s.cashoutAmount.value);
  }

  /** `cashout` succeeds exactly with one yoctoNEAR attached, proceeds
      captured and a non-zero supply; it pays the caller its fixed-point share
      (never more than the exact pro-rata amount, never more than the proceeds
      for a balance within the supply), zeroes the caller's balance, registering
      it if need be, and changes no other balance. */
  lemma CashoutPaysShareAndZeroes(c: Config, s: State, caller: AccountId, deposit: nat)
    ensures Cashout(c, s, caller, deposit).Done?
        <==> deposit == ONE_YOCTO && s.cashoutAmount.Some? && c.totalSupply > 0
    ensures deposit == ONE_YOCTO && s.cashoutAmount.None? ==> Cashout(c, s, caller, deposit) == Abort(NotSold)
    ensures var r := Cashout(c, s, caller, deposit);
      r.Done? ==>
        && r.value * c.totalSupply <= s.cashoutAmount.value * WeightOf(s.owners, caller)
        && (WeightOf(s.owners, caller) <= c.totalSupply ==> r.value <= s.cashoutAmount.value)
        && r.next.outbox == s.outbox + [Pay(caller, r.value, CashoutPayout)]
        && r.next.owners.Keys == s.owners.Keys + {caller}
        && r.next.owners[caller] == 0
        && (forall a :: a in s.owners && a != caller ==> r.next.owners[a] == s.owners[a])
        && r.next.(owners := s.owners, outbox := s.outbox) == s
  {
    if Cashout(c, s, caller, deposit).Done? {
      PayoutAtMostExactShare(s.cashoutAmount.value, WeightOf(s.owners, caller), c.totalSupply);
    }
  }

  /** No double pay: a second `cashout` straight after the first pays 0. */
  lemma CashoutTwicePaysZero(c: Config, s: State, caller: AccountId)
    requires Cashout(c, s, caller, ONE_YOCTO).Done?
    ensures var t := Cashout(c, s, caller, ONE_YOCTO).next;
      Cashout(c, t, caller, ONE_YOCTO).Done? && Cashout(c, t, caller, ONE_YOCTO).value == 0
  {
    var t := Cashout(c, s, caller, ONE_YOCTO).next;
    PayoutAtMostExactShare(t.cashoutAmount.value, WeightOf(t.owners, caller), c.totalSupply);
  }

  /** `cashout` does not look at the pending sale. A holder of the whole
      supply who cashes out while the hand-off is pending is paid the whole
      captured payment; if the hand-off then fails, the receiver is refunded
      that same payment too, so the contract pays it out twice. */
  lemma CashoutDuringPendingSaleThenFailurePaysTwice(c: Config, s: State, holder: AccountId, captured: nat)
    requires s.saleInProgressId.Some? && s.cashoutAmount == Some(captured)
    requires s.saleInProgressId.value in s.motions && s.motions[s.saleInProgressId.value].Sale?
    requires c.totalSupply > 0 && WeightOf(s.owners, holder) == c.totalSupply
    ensures var paid := Cashout(c, s, holder, ONE_YOCTO);
      && paid.Done? && paid.value == captured
      && var failed := ResolveSale(paid.next, false);
      && failed.Done?
      && failed.next.outbox == s.outbox + [Pay(holder, captured, CashoutPayout),
                                           Pay(s.motions[s.saleInProgressId.value].sale.receiverId, captured, SalePaymentRefund)]
  {
    WholeSupplyTakesAll(captured, c.totalSupply);
  }

  /** `ft_transfer` is the ledger transfer from the caller, guarded by one
      yoctoNEAR; only the ledger changes. */
  lemma FtTransferIsLedgerTransfer(s: State, caller: AccountId, deposit: nat, receiverId: AccountId, amount: nat)
    ensures deposit != ONE_YOCTO ==> FtTransfer(s, caller, deposit, receiverId, amount) == Abort(NotOneYocto)
    ensures deposit == ONE_YOCTO ==>
      match Transfer(s.owners, caller, receiverId, amount)
      case Ok(owners) => FtTransfer(s, caller, deposit, receiverId, amount) == Done((), s.(owners := owners))
      case Err(e) => FtTransfer(s, caller, deposit, receiverId, amount) == Abort(e)
  {
  }

  /** A refund example: price 100, 101 attached, the hand-off
      fails, and the receiver gets 101 back with the contract unlocked. */
  lemma FailedSaleExample(c: Config, s: State, buyer: AccountId)
    requires s.motions == map["m" := Sale(SaleMotion(buyer, 100, NewVotes()))]
    requires s.cashoutAmount.None? && s.saleInProgressId.None?
    requires c.participationThreshold == 0 && c.acceptanceThreshold == 0
    ensures var finished := FinishSaleMotion(c, s, buyer, 101, "m");
      && finished == Done(true, finished.next)
      && ResolveSale(finished.next, false)
         == Done(false, s.(outbox := s.outbox + [NftHandOff(c.nftContractId, buyer, c.nftTokenId, NFT_TRANSFER_DEPOSIT),
                                                 Pay(buyer, 101, SalePaymentRefund)]))
  {
  }
}
