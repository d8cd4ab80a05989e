/** Vocabulary shared by every part of the Fungifier contract: identifiers,
    the fixed amounts the contract demands or pays, and the reasons a call
    aborts (each `panic_str` / `require!` of the contract becomes one Error). */
module Types {

  /** NEAR account identifiers are opaque strings. */
  type AccountId = string

  /** Motions are stored under a caller-chosen string key. */
  type MotionId = string

  /** Exact deposit `register` demands (one milliNEAR, in yoctoNEAR). */
  const REGISTRATION_DEPOSIT: nat := 1000_000000_000000_000000

  /** Exact deposit `init_sell_motion` demands, refunded on withdrawal or after a sale. */
  const MOTION_DEPOSIT: nat := 1000_000000_000000_000000

  /** `assert_one_yocto` demands exactly this attached deposit. */
  const ONE_YOCTO: nat := 1

  /** Deposit attached to the NFT hand-off request (the NEP-171 transfer convention). */
  const NFT_TRANSFER_DEPOSIT: nat := 1

  /** Fixed-point scale `cashout` uses for a holder's fraction of the supply. */
  const PRECISION: nat := 1_000_000

  datatype Option<T> = None | Some(value: T)

  /** Why a call aborted; an aborted call has no effect at all. */
  datatype Error =
    | WrongRegistrationDeposit        // register: deposit is not exactly REGISTRATION_DEPOSIT
    | WrongMotionDeposit              // init_sell_motion: deposit is not exactly MOTION_DEPOSIT
    | MotionIdInUse                   // init_sell_motion: the motion id is taken
    | NoSuchMotion                    // no motion stored under the id
    | NotASale                        // the stored motion is not a Sale
    | NotReceiver                     // caller is not the sale motion's receiver
    | InsufficientDeposit             // finish_sale_motion: deposit < sale price + 1
    | SaleInProgress                  // finish_sale_motion: another hand-off is pending
    | AlreadySold                     // finish_sale_motion: proceeds already captured
    | NoPendingSale                   // resolve_sale: sale_in_progress_id is None
    | PendingMotionMissing            // resolve_sale: the pending motion is no longer stored
    | NothingCaptured                 // resolve_sale: cashout_amount is None
    | NotOneYocto                     // assert_one_yocto failed
    | NotSold                         // cashout: cashout_amount is None
    | ZeroSupply                      // cashout: division by a total supply of 0
    | NotRegistered(account: AccountId) // get_balance_internal: account has no ledger entry
    | InsufficientShares              // ft_transfer_internal: sender balance <= amount

  datatype Result<T> = Ok(value: T) | Err(error: Error)
}
