/** The share ledger (`ft_owners`): who holds how many shares, the checked
    lookup, the share transfer, and the sum of all recorded balances. */
module Ledger {
  import opened Types

  /** Account -> share balance. Registration creates an entry; nothing removes one. */
  type Balances = map<AccountId, nat>

  /** Weight of an account in a vote tally or a cashout: its balance, 0 when unregistered. */
  function WeightOf(owners: Balances, account: AccountId): nat
  {
    if account in owners then owners[account] else 0
  }

  /** `get_balance_internal`: the balance of a registered account; an unregistered one aborts. */
  function GetBalance(owners: Balances, account: AccountId): (r: Result<nat>)
    ensures r.Ok? <==> account in owners
    ensures r.Ok? ==> r.value == owners[account] == WeightOf(owners, account)
    ensures r.Err? ==> r.error == NotRegistered(account)
  {
    if account in owners then Ok(owners[account]) else Err(NotRegistered(account))
  }

  /** `ft_transfer_internal`: both balances are read before either is written,
      and the sender must hold strictly more than `amount`. */
  function Transfer(owners: Balances, sender: AccountId, receiver: AccountId, amount: nat): (r: Result<Balances>)
    ensures r.Ok? <==> sender in owners && receiver in owners && owners[sender] > amount
    ensures sender !in owners ==> r == Err(NotRegistered(sender))
    ensures sender in owners && receiver !in owners ==> r == Err(NotRegistered(receiver))
    ensures sender in owners && receiver in owners && owners[sender] <= amount ==> r == Err(InsufficientShares)
    ensures r.Ok? ==> r.value.Keys == owners.Keys
  {
    match GetBalance(owners, sender)
    case Err(e) => Err(e)
    case Ok(senderBalance) =>
      match GetBalance(owners, receiver)
      case Err(e) => Err(e)
      case Ok(receiverBalance) =>
        if senderBalance > amount then
          Ok(owners[sender := senderBalance - amount][receiver := receiverBalance + amount])
        else
          Err(InsufficientShares)
  }

  /** Some key of a non-empty set of accounts. */
  ghost function PickAccount(accounts: set<AccountId>): AccountId
    requires accounts != {}
  {
    var a :| a in accounts; a
  }

  /** Sum of every recorded balance. */
  ghost function SumOf(owners: Balances): nat
    decreases |owners|
  {
    if owners == map[] then 0
    else
      var a := PickAccount(owners.Keys);
      owners[a] + SumOf(owners - {a})
  }

  /** Any entry may be split off the sum, not only the one SumOf picks. */
  lemma {:induction false} SumOfRemove(owners: Balances, account: AccountId)
    requires account in owners
    ensures SumOf(owners) == owners[account] + SumOf(owners - {account})
    decreases |owners|
  {
    var picked := PickAccount(owners.Keys);
    if picked != account {
      SumOfRemove(owners - {picked}, account);
      SumOfRemove(owners - {account}, picked);
      assert owners - {picked} - {account} == owners - {account} - {picked};
    }
  }

  /** Writing `value` at `account` changes the sum by the difference to the old weight. */
  lemma SumOfUpdate(owners: Balances, account: AccountId, value: nat)
    ensures SumOf(owners[account := value]) + WeightOf(owners, account) == SumOf(owners) + value
  {
    var updated := owners[account := value];
    SumOfRemove(updated, account);
    if account in owners {
      SumOfRemove(owners, account);
      assert updated - {account} == owners - {account};
    } else {
      assert updated - {account} == owners;
    }
  }

  /** Between two distinct accounts a transfer moves exactly `amount` from
      sender to receiver, leaves every other balance alone and keeps the total. */
  lemma TransferBetweenDistinctAccounts(owners: Balances, sender: AccountId, receiver: AccountId, amount: nat)
    requires sender != receiver
    requires Transfer(owners, sender, receiver, amount).Ok?
    ensures var after := Transfer(owners, sender, receiver, amount).value;
      && after[sender] == owners[sender] - amount
      && after[receiver] == owners[receiver] + amount
      && (forall a :: a in owners && a != sender && a != receiver ==> after[a] == owners[a])
      && SumOf(after) == SumOf(owners)
  {
    var lowered := owners[sender := owners[sender] - amount];
    SumOfUpdate(owners, sender, owners[sender] - amount);
    SumOfUpdate(lowered, receiver, owners[receiver] + amount);
  }

  /** With sender == receiver the second write wins over the first: the
      balance grows by `amount` and the total grows with it. */
  lemma SelfTransferMintsShares(owners: Balances, account: AccountId, amount: nat)
    requires Transfer(owners, account, account, amount).Ok?
    ensures Transfer(owners, account, account, amount).value == owners[account := owners[account] + amount]
    ensures SumOf(Transfer(owners, account, account, amount).value) == SumOf(owners) + amount
  {
    var balance := owners[account];
    var minted := owners[account := balance + amount];
    assert Transfer(owners, account, account, amount).value == owners[account := balance - amount][account := balance + amount];
    assert owners[account := balance - amount][account := balance + amount] == minted;
    SumOfUpdate(owners, account, balance + amount);
  }
}
