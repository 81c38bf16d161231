/** The account balance summary (src/services/accounts.ts,
    `getAccountBalanceSummary`): the household's visible accounts are added
    into five buckets by account type, and net worth is assets less credit. */
module AccountSummary {
  import opened Common
  import opened Ledger

  /** The bucket an account type is added into. */
  datatype Bucket = Checking | Savings | Credit | Investment | Other

  function BucketOf(kind: string): Bucket
  {
    if kind == "depository" then Checking
    else if kind == "savings" then Savings
    else if kind == "credit" then Credit
    else if kind == "investment" then Investment
    else Other
  }

  /** `balance_current ?? 0`. */
  function Balance(a: Account): int
  {
    if a.balance_current.Some? then a.balance_current.value else 0
  }

  /** The accounts the query reads: the household's, not hidden. */
  function Visible(accounts: seq<Account>, household: string): (r: seq<Account>)
    ensures forall a :: a in r <==> a in accounts && a.household_id == household && !a.is_hidden
  {
    if accounts == [] then []
    else
      var last := accounts[|accounts| - 1];
      Visible(accounts[..|accounts| - 1], household) + (if last.household_id == household && !last.is_hidden then [last] else [])
  }

  /** The balances of the accounts of one bucket, added up. */
  function BucketTotal(accounts: seq<Account>, b: Bucket): int
  {
    if accounts == [] then 0
    else
      var last := accounts[|accounts| - 1];
      BucketTotal(accounts[..|accounts| - 1], b) + (if BucketOf(last.kind) == b then Balance(last) else 0)
  }

  /** All balances added up. */
  function BalanceTotal(accounts: seq<Account>): int
  {
    if accounts == [] then 0 else BalanceTotal(accounts[..|accounts| - 1]) + Balance(accounts[|accounts| - 1])
  }

  datatype Summary = Summary(checking: int, savings: int, credit: int, investment: int, other: int, netWorth: int)

  /** `getAccountBalanceSummary`. */
  method GetAccountBalanceSummary(accounts: seq<Account>, household: string) returns (summary: Summary)
    ensures var data := Visible(accounts, household);
      && summary.checking == BucketTotal(data, Checking)
      && summary.savings == BucketTotal(data, Savings)
      && summary.credit == BucketTotal(data, Credit)
      && summary.investment == BucketTotal(data, Investment)
      && summary.other == BucketTotal(data, Other)
    ensures summary.netWorth == summary.checking + summary.savings + summary.investment + summary.other - summary.credit
  {
    var data := Visible(accounts, household);
    summary := Summary(0, 0, 0, 0, 0, 0);
    for i := 0 to |data|
      invariant summary.checking == BucketTotal(data[..i], Checking)
      invariant summary.savings == BucketTotal(data[..i], Savings)
      invariant summary.credit == BucketTotal(data[..i], Credit)
      invariant summary.investment == BucketTotal(data[..i], Investment)
      invariant summary.other == BucketTotal(data[..i], Other)
    {
      var account := data[i];
      assert data[..i + 1][..i] == data[..i];
      var balance := if account.balance_current.Some? then account.balance_current.value else 0;
      match BucketOf(account.kind)
      case Checking => summary := summary.(checking := summary.checking + balance);
      case Savings => summary := summary.(savings := summary.savings + balance);
      case Credit => summary := summary.(credit := summary.credit + balance);
      case Investment => summary := summary.(investment := summary.investment + balance);
      case Other => summary := summary.(other := summary.other + balance);
    }
    assert data[..|data|] == data;
    summary := summary.(netWorth := summary.checking + summary.savings + summary.investment - summary.credit + summary.other);
  }

  /** Every account lands in exactly one bucket: the five buckets add up to
      the total balance. */
  lemma {:induction false} BucketsPartition(accounts: seq<Account>)
    ensures BucketTotal(accounts, Checking) + BucketTotal(accounts, Savings) + BucketTotal(accounts, Credit)
          + BucketTotal(accounts, Investment) + BucketTotal(accounts, Other) == BalanceTotal(accounts)
  {
    if accounts != [] {
      BucketsPartition(accounts[..|accounts| - 1]);
    }
  }

  /** Hence net worth is the total balance less twice the credit owed, and
      without accounts every figure is zero. */
  lemma NetWorthMeaning(accounts: seq<Account>, household: string)
    ensures var data := Visible(accounts, household);
      BucketTotal(data, Checking) + BucketTotal(data, Savings) + BucketTotal(data, Investment) + BucketTotal(data, Other)
        - BucketTotal(data, Credit) == BalanceTotal(data) - 2 * BucketTotal(data, Credit)
    ensures Visible(accounts, household) == [] ==>
      forall b :: BucketTotal(Visible(accounts, household), b) == 0
  {
    BucketsPartition(Visible(accounts, household));
  }

  /** A hidden account or another household's account changes no bucket. */
  lemma {:induction false} OnlyVisibleAccountsCount(accounts: seq<Account>, a: Account, household: string, b: Bucket)
    requires a.household_id != household || a.is_hidden
    ensures BucketTotal(Visible(accounts + [a], household), b) == BucketTotal(Visible(accounts, household), b)
  {
    assert (accounts + [a])[..|accounts|] == accounts;
    assert Visible(accounts + [a], household) == Visible(accounts, household);
  }
}
