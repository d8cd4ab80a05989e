/** The fixed-point arithmetic of `cashout`: a holder's fraction of the supply
    is scaled by PRECISION and rounded down, and the payout is that fraction
    of the captured proceeds, rounded down again. */
module Proceeds {
  import opened Types

  /** `share`: balance * PRECISION / total_supply, rounded down. */
  function Share(balance: nat, totalSupply: nat): nat
    requires totalSupply > 0
  {
    balance * PRECISION / totalSupply
  }

  /** `cashout`: proceeds * share / PRECISION, rounded down. */
  function Payout(proceeds: nat, balance: nat, totalSupply: nat): nat
    requires totalSupply > 0
  {
    proceeds * Share(balance, totalSupply) / PRECISION
  }

  // Small facts of natural-number arithmetic the proofs below lean on.

  lemma DivTimesAtMost(x: nat, d: nat)
    requires d > 0
    ensures (x / d) * d <= x
  {
  }

  lemma MulMonotone(a: nat, b: nat, c: nat)
    requires a <= b
    ensures a * c <= b * c
  {
  }

  lemma MulCancel(a: nat, b: nat, c: nat)
    requires c > 0
    requires a * c <= b * c
    ensures a <= b
  {
  }

  lemma MulDivCancel(a: nat, d: nat)
    requires d > 0
    ensures (a * d) / d == a
  {
    var q := (a * d) / d;
    assert a * d == q * d + (a * d) % d;
    if q < a {
      MulMonotone(q + 1, a, d);
      assert false;
    } else if q > a {
      MulMonotone(a + 1, q, d);
      assert false;
    }
  }

  /** Rounding only ever favours the contract: the payout never exceeds the
      exact pro-rata amount proceeds * balance / totalSupply, so a holder of no
      more than the whole supply is paid no more than the proceeds. */
  lemma PayoutAtMostExactShare(proceeds: nat, balance: nat, totalSupply: nat)
    requires totalSupply > 0
    ensures Payout(proceeds, balance, totalSupply) * totalSupply <= proceeds * balance
    ensures balance <= totalSupply ==> Payout(proceeds, balance, totalSupply) <= proceeds
    ensures balance == 0 ==> Payout(proceeds, balance, totalSupply) == 0
  {
    var share := Share(balance, totalSupply);
    var payout := Payout(proceeds, balance, totalSupply);
    DivTimesAtMost(balance * PRECISION, totalSupply);
    DivTimesAtMost(proceeds * share, PRECISION);
    assert share * totalSupply <= balance * PRECISION;
    assert payout * PRECISION <= proceeds * share;
    calc {
      payout * totalSupply * PRECISION;
    ==
      (payout * PRECISION) * totalSupply;
    <=  { MulMonotone(payout * PRECISION, proceeds * share, totalSupply); }
      (proceeds * share) * totalSupply;
    ==
      proceeds * (share * totalSupply);
    <=  { MulMonotone(share * totalSupply, balance * PRECISION, proceeds); }
      proceeds * (balance * PRECISION);
    ==
      (proceeds * balance) * PRECISION;
    }
    MulCancel(payout * totalSupply, proceeds * balance, PRECISION);
    if balance <= totalSupply {
      MulMonotone(balance, totalSupply, proceeds);
      MulCancel(payout, proceeds, totalSupply);
    }
  }

  /** A holder of the whole supply is paid the whole proceeds. */
  lemma WholeSupplyTakesAll(proceeds: nat, totalSupply: nat)
    requires totalSupply > 0
    ensures Payout(proceeds, totalSupply, totalSupply) == proceeds
  {
    assert totalSupply * PRECISION == PRECISION * totalSupply;
    MulDivCancel(PRECISION, totalSupply);
    MulDivCancel(proceeds, PRECISION);
  }
}
