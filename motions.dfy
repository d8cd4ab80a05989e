/** The motion store's records: a motion is a Sale or a Misc motion, and
    every settlement path first insists on a Sale. */
module Motions {
  import opened Types
  import opened Tally

  /** A proposal to sell the NFT to `receiverId` for `salePrice`. */
  datatype SaleMotion = SaleMotion(receiverId: AccountId, salePrice: nat, votes: Votes)

  /** A non-binding motion; no operation of the contract creates or consumes one. */
  datatype MiscMotion = MiscMotion(initiatorId: AccountId, description: string, votes: Votes)

  datatype Motion = Sale(sale: SaleMotion) | Misc(misc: MiscMotion)

  /** `Motion::unwrap_sale`: the sale record of a Sale motion; any other kind aborts. */
  function UnwrapSale(m: Motion): (r: Result<SaleMotion>)
    ensures r.Ok? <==> m.Sale?
    ensures r.Ok? ==> m == Sale(r.value)
    ensures r.Err? ==> r.error == NotASale
  {
    match m
    case Sale(sale) => Ok(sale)
    case Misc(_) => Err(NotASale)
  }

  /** `get_sale_motion_panicking`: the sale stored under `id`; a missing id or
      a motion of another kind aborts, each with its own reason. */
  function GetSaleMotion(motions: map<MotionId, Motion>, id: MotionId): (r: Result<SaleMotion>)
    ensures r.Ok? <==> id in motions && motions[id].Sale?
    ensures r.Ok? ==> motions[id] == Sale(r.value)
    ensures id !in motions ==> r == Err(NoSuchMotion)
    ensures id in motions && motions[id].Misc? ==> r == Err(NotASale)
  {
    if id !in motions then Err(NoSuchMotion)
    else UnwrapSale(motions[id])
  }
}
