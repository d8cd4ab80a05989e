/** The `Fungifier` contract object: its configuration is fixed by `init`,
    and each entry point updates the ledger, the motion store and the two
    settlement fields in place. Every method is proved to reply and to leave
    the object exactly as the corresponding Settlement function says; an
    aborted call leaves it untouched. */
module Contract {
  import opened Types
  import opened Ledger
  import opened Tally
  import opened Motions
  import opened Settlement

  class Fungifier {
    const deployerId: AccountId
    const nftContractId: AccountId
    const nftTokenId: string
    const totalSupply: nat
    const participationThreshold: nat
    const acceptanceThreshold: nat

    var ftOwners: Balances
    var motions: map<MotionId, Motion>
    var cashoutAmount: Option<nat>
    var saleInProgressId: Option<MotionId>
    /** Transfers and hand-off requests issued so far, oldest first. */
    ghost var outbox: seq<Effect>

    /** The configuration fixed at construction. */
    function Settings(): Config
    {
      Config(deployerId, nftContractId, nftTokenId, totalSupply, participationThreshold, acceptanceThreshold)
    }

    /** The mutable state as a value. */
    ghost function Snapshot(): State
      reads this
    {
      State(ftOwners, motions, cashoutAmount, saleInProgressId, outbox)
    }

    /** `init`: records the configuration; the ledger and the motion store
        start empty, nothing is captured and no sale is pending. */
    constructor Init(deployerId: AccountId, nftContractId: AccountId, nftTokenId: string,
                     totalSupply: nat, participationThreshold: nat, acceptanceThreshold: nat)
      ensures Settings() == Config(deployerId, nftContractId, nftTokenId, totalSupply,
                                   participationThreshold, acceptanceThreshold)
      ensures Snapshot() == Settlement.Init()
    {
      this.deployerId := deployerId;
      this.nftContractId := nftContractId;
      this.nftTokenId := nftTokenId;
      this.totalSupply := totalSupply;
      this.participationThreshold := participationThreshold;
      this.acceptanceThreshold := acceptanceThreshold;
      ftOwners := map[];
      motions := map[];
      cashoutAmount := None;
      saleInProgressId := None;
      outbox := [];
    }

    /** `register`. */
    method Register(caller: AccountId, deposit: nat) returns (r: Result<()>)
      modifies this
      ensures r == Settlement.Register(old(Snapshot()), caller, deposit).Reply()
      ensures Snapshot() == Settlement.Register(old(Snapshot()), caller, deposit).After(old(Snapshot()))
    {
      if deposit != REGISTRATION_DEPOSIT {
        return Err(WrongRegistrationDeposit);
      }
      ftOwners := ftOwners[caller := 0];
      return Ok(());
    }

    /** `init_sell_motion`. */
    method InitSellMotion(caller: AccountId, deposit: nat, salePrice: nat, motionId: MotionId) returns (r: Result<()>)
      modifies this
      ensures r == Settlement.InitSellMotion(old(Snapshot()), caller, deposit, salePrice, motionId).Reply()
      ensures Snapshot()
           == Settlement.InitSellMotion(old(Snapshot()), caller, deposit, salePrice, motionId).After(old(Snapshot()))
    {
      if deposit != MOTION_DEPOSIT {
        return Err(WrongMotionDeposit);
      }
      if motionId in motions {
        return Err(MotionIdInUse);
      }
      motions := motions[motionId := Sale(SaleMotion(caller, salePrice, NewVotes()))];
      return Ok(());
    }

    /** `finish_sale_motion`: the guards, the tally loops, then the commit and
        the hand-off request. */
    method FinishSaleMotion(caller: AccountId, deposit: nat, motionId: MotionId) returns (r: Result<bool>)
      modifies this
      ensures r == Settlement.FinishSaleMotion(Settings(), old(Snapshot()), caller, deposit, motionId).Reply()
      ensures Snapshot()
           == Settlement.FinishSaleMotion(Settings(), old(Snapshot()), caller, deposit, motionId).After(old(Snapshot()))
    {
      var found := GetSaleMotion(motions, motionId);
      if found.Err? {
        return Err(found.error);
      }
      var motion := found.value;
      if motion.receiverId != caller {
        return Err(NotReceiver);
      }
      if deposit < motion.salePrice + 1 {
        return Err(InsufficientDeposit);
      }
      if saleInProgressId.Some? {
        return Err(SaleInProgress);
      }
      if cashoutAmount.Some? {
        return Err(AlreadySold);
      }
      var participated := TotalVotes(motion.votes, ftOwners);
      var accepted := FavorableVotes(motion.votes, ftOwners);
      if participated < participationThreshold {
        return Ok(false);
      }
      if accepted < acceptanceThreshold {
        return Ok(false);
      }
      cashoutAmount := Some(deposit);
      saleInProgressId := Some(motionId);
      outbox := outbox + [NftHandOff(nftContractId, motion.receiverId, nftTokenId, NFT_TRANSFER_DEPOSIT)];
      return Ok(true);
    }

    /** `resolve_sale`: the callback, told whether the hand-off succeeded. */
    method ResolveSale(handOffSucceeded: bool) returns (r: Result<bool>)
      modifies this
      ensures r == Settlement.ResolveSale(old(Snapshot()), handOffSucceeded).Reply()
      ensures Snapshot() == Settlement.ResolveSale(old(Snapshot()), handOffSucceeded).After(old(Snapshot()))
    {
      if saleInProgressId.None? {
        return Err(NoPendingSale);
      }
      var motionId := saleInProgressId.value;
      if motionId !in motions {
        return Err(PendingMotionMissing);
      }
      var unwrapped := UnwrapSale(motions[motionId]);
      if unwrapped.Err? {
        return Err(unwrapped.error);
      }
      var motion := unwrapped.value;
      if cashoutAmount.None? {
        return Err(NothingCaptured);
      }
      var salePrice := cashoutAmount.value;
      if !handOffSucceeded {
        outbox := outbox + [Pay(motion.receiverId, salePrice, SalePaymentRefund)];
        saleInProgressId := None;
        cashoutAmount := None;
        return Ok(false);
      }
      saleInProgressId := None;
      outbox := outbox + [Pay(motion.receiverId, MOTION_DEPOSIT, MotionDepositRefund)];
      return Ok(true);
    }

    /** `withdraw_sale_motion`. */
    method WithdrawSaleMotion(caller: AccountId, motionId: MotionId) returns (r: Result<()>)
      modifies this
      ensures r == Settlement.WithdrawSaleMotion(old(Snapshot()), caller, motionId).Reply()
      ensures Snapshot() == Settlement.WithdrawSaleMotion(old(Snapshot()), caller, motionId).After(old(Snapshot()))
    {
      var found := GetSaleMotion(motions, motionId);
      if found.Err? {
        return Err(found.error);
      }
      var motion := found.value;
      if caller != motion.receiverId {
        return Err(NotReceiver);
      }
      motions := motions - {motionId};
      outbox := outbox + [Pay(motion.receiverId, MOTION_DEPOSIT, MotionDepositRefund)];
      return Ok(());
    }

    /** `cashout`; the reply carries the amount transferred to the caller. */
    method Cashout(caller: AccountId, deposit: nat) returns (r: Result<nat>)
      modifies this
      ensures r == Settlement.Cashout(Settings(), old(Snapshot()), caller, deposit).Reply()
      ensures Snapshot() == Settlement.Cashout(Settings(), old(Snapshot()), caller, deposit).After(old(Snapshot()))
    {
      if deposit != ONE_YOCTO {
        return Err(NotOneYocto);
      }
      if cashoutAmount.None? {
        return Err(NotSold);
      }
      if totalSupply == 0 {
        return Err(ZeroSupply);
      }
      var proceeds := cashoutAmount.value;
      var balance := if caller in ftOwners then ftOwners[caller] else 0;
      var share := balance * PRECISION / totalSupply;
      var payout := proceeds * share / PRECISION;
      outbox := outbox + [Pay(caller, payout, CashoutPayout)];
      ftOwners := ftOwners[caller := 0];
      return Ok(payout);
    }

    /** `get_balance_internal`. */
    method GetBalanceInternal(account: AccountId) returns (r: Result<nat>)
      ensures r.Ok? <==> account in ftOwners
      ensures r.Ok? ==> r.value == ftOwners[account]
      ensures r.Err? ==> r.error == NotRegistered(account)
    {
      r := GetBalance(ftOwners, account);
    }

    /** `ft_transfer_internal`: both balances are read, then both are written. */
    method FtTransferInternal(sender: AccountId, receiver: AccountId, amount: nat) returns (r: Result<()>)
      modifies this`ftOwners
      ensures var expected := Transfer(old(ftOwners), sender, receiver, amount);
        && r == (if expected.Ok? then Ok(()) else Err(expected.error))
        && ftOwners == (if expected.Ok? then expected.value else old(ftOwners))
    {
      var senderBalance := GetBalanceInternal(sender);
      if senderBalance.Err? {
        return Err(senderBalance.error);
      }
      var receiverBalance := GetBalanceInternal(receiver);
      if receiverBalance.Err? {
        return Err(receiverBalance.error);
      }
      if !(senderBalance.value > amount) {
        return Err(InsufficientShares);
      }
      ftOwners := ftOwners[sender := senderBalance.value - amount];
      ftOwners := ftOwners[receiver := receiverBalance.value + amount];
      return Ok(());
    }

    /** `ft_transfer`: one yoctoNEAR attached, then a transfer from the caller. */
    method FtTransfer(caller: AccountId, deposit: nat, receiverId: AccountId, amount: nat) returns (r: Result<()>)
      modifies this
      ensures r == Settlement.FtTransfer(old(Snapshot()), caller, deposit, receiverId, amount).Reply()
      ensures Snapshot()
           == Settlement.FtTransfer(old(Snapshot()), caller, deposit, receiverId, amount).After(old(Snapshot()))
    {
      if deposit != ONE_YOCTO {
        return Err(NotOneYocto);
      }
      r := FtTransferInternal(caller, receiverId, amount);
    }

    /** `ft_total_supply`: the supply fixed by `init`. */
    method FtTotalSupply() returns (supply: nat)
      ensures supply == Settings().totalSupply
    {
      supply := totalSupply;
    }

    /** `ft_balance_of`: the balance of a registered account; an unregistered one aborts. */
    method FtBalanceOf(account: AccountId) returns (r: Result<nat>)
      ensures r.Ok? <==> account in ftOwners
      ensures r.Ok? ==> r.value == ftOwners[account]
      ensures r.Err? ==> r.error == NotRegistered(account)
    {
      r := GetBalanceInternal(account);
    }
  }
}
