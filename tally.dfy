/** The vote tally (`Votes`): the ballots of one motion, weighed lazily
    against the current ledger. Ballots are lists, not sets: an account that
    appears twice is counted twice. */
module Tally {
  import opened Types
  import opened Ledger

  datatype Votes = Votes(accepting: seq<AccountId>, rejecting: seq<AccountId>, indifferent: seq<AccountId>)

  /** `Votes::new`: no ballot of any kind, so the tally weighs nothing on any ledger. */
  function NewVotes(): (v: Votes)
    ensures forall owners :: TotalWeight(v, owners) == 0 && FavorableWeight(v, owners) == 0
  {
    Votes([], [], [])
  }

  /** Weight of a list of ballots, one term per entry. */
  function SumWeights(ballots: seq<AccountId>, owners: Balances): nat
  {
    if ballots == [] then 0
    else SumWeights(ballots[..|ballots| - 1], owners) + WeightOf(owners, ballots[|ballots| - 1])
  }

  /** Participation: every ballot of accepting ++ rejecting ++ indifferent. */
  function TotalWeight(v: Votes, owners: Balances): nat
  {
    SumWeights(v.accepting + v.rejecting + v.indifferent, owners)
  }

  /** Approval: the accepting ballots only. */
  function FavorableWeight(v: Votes, owners: Balances): nat
  {
    SumWeights(v.accepting, owners)
  }

  /** The weight of two lists of ballots laid end to end is the sum of their weights. */
  lemma {:induction false} SumWeightsAppend(a: seq<AccountId>, b: seq<AccountId>, owners: Balances)
    ensures SumWeights(a + b, owners) == SumWeights(a, owners) + SumWeights(b, owners)
    decreases |b|
  {
    if b == [] {
      assert a + b == a;
    } else {
      var front := b[..|b| - 1];
      assert (a + b)[..|a + b| - 1] == a + front;
      assert (a + b)[|a + b| - 1] == b[|b| - 1];
      SumWeightsAppend(a, front, owners);
    }
  }

  /** Participation splits into the weights of the three ballot lists. */
  lemma TotalIsSumOfLists(v: Votes, owners: Balances)
    ensures TotalWeight(v, owners)
         == SumWeights(v.accepting, owners) + SumWeights(v.rejecting, owners) + SumWeights(v.indifferent, owners)
  {
    SumWeightsAppend(v.accepting + v.rejecting, v.indifferent, owners);
    SumWeightsAppend(v.accepting, v.rejecting, owners);
  }

  /** Approval never exceeds participation: the accepting ballots are among all ballots. */
  lemma FavorableAtMostTotal(v: Votes, owners: Balances)
    ensures FavorableWeight(v, owners) <= TotalWeight(v, owners)
  {
    TotalIsSumOfLists(v, owners);
  }

  /** Taking the entry at `i` out of a list of ballots takes its weight out of the sum. */
  lemma SumWeightsRemoveAt(b: seq<AccountId>, i: nat, owners: Balances)
    requires i < |b|
    ensures SumWeights(b, owners) == SumWeights(b[..i] + b[i + 1..], owners) + WeightOf(owners, b[i])
  {
    assert b == (b[..i] + [b[i]]) + b[i + 1..];
    SumWeightsAppend(b[..i] + [b[i]], b[i + 1..], owners);
    SumWeightsAppend(b[..i], b[i + 1..], owners);
  }

  /** Taking the entry at `i` out of a list takes one copy of it out of the multiset. */
  lemma MultisetRemoveAt(b: seq<AccountId>, i: nat)
    requires i < |b|
    ensures multiset(b[..i] + b[i + 1..]) == multiset(b) - multiset{b[i]}
  {
    assert b == b[..i] + [b[i]] + b[i + 1..];
    assert multiset(b) == multiset(b[..i]) + multiset{b[i]} + multiset(b[i + 1..]);
  }

  /** The order of the ballots does not matter: lists with the same multiset of entries weigh the same. */
  lemma {:induction false} SumWeightsPermutation(a: seq<AccountId>, b: seq<AccountId>, owners: Balances)
    requires multiset(a) == multiset(b)
    ensures SumWeights(a, owners) == SumWeights(b, owners)
    decreases |a|
  {
    if a == [] {
      assert |b| == |multiset(b)| == 0;
    } else {
      var last := |a| - 1;
      assert a[last] in multiset(b) by {
        assert a[last] in multiset(a);
      }
      var i :| 0 <= i < |b| && b[i] == a[last];
      MultisetRemoveAt(a, last);
      MultisetRemoveAt(b, i);
      assert a[..last] + a[last + 1..] == a[..last];
      SumWeightsPermutation(a[..last], b[..i] + b[i + 1..], owners);
      SumWeightsRemoveAt(b, i, owners);
    }
  }

  /** Only the ledger entries of the listed accounts matter: two ledgers that
      weigh every listed account alike give the same sum. */
  lemma {:induction false} SumWeightsFrame(ballots: seq<AccountId>, owners: Balances, owners': Balances)
    requires forall i :: 0 <= i < |ballots| ==> WeightOf(owners, ballots[i]) == WeightOf(owners', ballots[i])
    ensures SumWeights(ballots, owners) == SumWeights(ballots, owners')
    decreases |ballots|
  {
    if ballots != [] {
      SumWeightsFrame(ballots[..|ballots| - 1], owners, owners');
    }
  }

  /** Ballots are not deduplicated: accepting again adds the account's weight
      once more to both participation and approval. */
  lemma RepeatedBallotCountsAgain(v: Votes, owners: Balances, account: AccountId)
    requires account in v.accepting
    ensures TotalWeight(v.(accepting := v.accepting + [account]), owners) == TotalWeight(v, owners) + WeightOf(owners, account)
    ensures FavorableWeight(v.(accepting := v.accepting + [account]), owners) == FavorableWeight(v, owners) + WeightOf(owners, account)
  {
    var w := v.(accepting := v.accepting + [account]);
    TotalIsSumOfLists(v, owners);
    TotalIsSumOfLists(w, owners);
    SumWeightsAppend(v.accepting, [account], owners);
  }

  /** `Votes::total_votes`: three loops accumulating the weight of every ballot. */
  method TotalVotes(v: Votes, owners: Balances) returns (total: nat)
    ensures total == TotalWeight(v, owners)
  {
    total := 0;
    for i := 0 to |v.accepting|
      invariant total == SumWeights(v.accepting[..i], owners)
    {
      assert v.accepting[..i + 1][..i] == v.accepting[..i];
      total := total + WeightOf(owners, v.accepting[i]);
    }
    assert v.accepting[..|v.accepting|] == v.accepting;
    for i := 0 to |v.rejecting|
      invariant total == SumWeights(v.accepting, owners) + SumWeights(v.rejecting[..i], owners)
    {
      assert v.rejecting[..i + 1][..i] == v.rejecting[..i];
      total := total + WeightOf(owners, v.rejecting[i]);
    }
    assert v.rejecting[..|v.rejecting|] == v.rejecting;
    for i := 0 to |v.indifferent|
      invariant total == SumWeights(v.accepting, owners) + SumWeights(v.rejecting, owners)
                         + SumWeights(v.indifferent[..i], owners)
    {
      assert v.indifferent[..i + 1][..i] == v.indifferent[..i];
      total := total + WeightOf(owners, v.indifferent[i]);
    }
    assert v.indifferent[..|v.indifferent|] == v.indifferent;
    TotalIsSumOfLists(v, owners);
  }

  /** `Votes::favorable_votes`: one loop over the accepting ballots. */
  method FavorableVotes(v: Votes, owners: Balances) returns (total: nat)
    ensures total == FavorableWeight(v, owners)
  {
    total := 0;
    for i := 0 to |v.accepting|
      invariant total == SumWeights(v.accepting[..i], owners)
    {
      assert v.accepting[..i + 1][..i] == v.accepting[..i];
      total := total + WeightOf(owners, v.accepting[i]);
    }
    assert v.accepting[..|v.accepting|] == v.accepting;
  }

  /** A worked example: A holds 600, B holds 400. A accepting
      and B rejecting gives participation 1000 and approval 600; B alone
      rejecting gives participation 400 and approval 0. */
  lemma TwoOwnerExample()
    ensures var owners := map["A" := 600, "B" := 400];
      && TotalWeight(Votes(["A"], ["B"], []), owners) == 1000
      && FavorableWeight(Votes(["A"], ["B"], []), owners) == 600
      && TotalWeight(Votes([], ["B"], []), owners) == 400
      && FavorableWeight(Votes([], ["B"], []), owners) == 0
  {
    var owners := map["A" := 600, "B" := 400];
    TotalIsSumOfLists(Votes(["A"], ["B"], []), owners);
    TotalIsSumOfLists(Votes([], ["B"], []), owners);
  }
}
