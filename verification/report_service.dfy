/** The report service: account lookup, transaction listings and the
    null-to-zero analytics, over an in-memory database. */
module ReportService {
  import opened Wrappers
  import opened Entities
  import opened CreatedAtOrder
  import opened Totals
  import opened TransactionRepository

  /** The two tables: accounts by primary key, and the transaction rows in
      the order `findAll()` returns them. */
  datatype Database = Database(accounts: map<string, Account>, transactions: Store)

  /** Every stored account sits under its own id. */
  predicate KeyedById(db: Database) {
    forall k :: k in db.accounts ==> db.accounts[k].id == k
  }

  /** `getAccount`: the stored account, or null (`None`) when there is none. */
  function GetAccount(db: Database, accountId: string): (r: Option<Account>)
    ensures r.Some? <==> accountId in db.accounts
    ensures KeyedById(db) && r.Some? ==> r.value.id == accountId
    ensures r.Some? ==> r.value == db.accounts[accountId]
  {
    if accountId in db.accounts then Some(db.accounts[accountId]) else None
  }

  /** `getTransactions`: one account's rows when an id is given, all rows otherwise. */
  function GetTransactions(db: Database, accountId: Option<string>): (r: seq<Transaction>)
    ensures accountId.None? ==> r == db.transactions
    ensures accountId.Some? ==>
              forall t :: multiset(r)[t] == (if t.accountId == accountId.value then multiset(db.transactions)[t] else 0)
  {
    match accountId
    case Some(id) => FindByAccountId(db.transactions, id)
    case None => db.transactions
  }

  /** How the store orders the rows without timestamp; the placement of
      `NULL` in `ORDER BY ... DESC` is not fixed by JPQL. */
  function HistoryNullPlacement(accountId: Option<string>, dbNulls: NullPlacement): NullPlacement {
    if accountId.Some? then dbNulls else NullsLowest
  }

  /** `getTransactionHistory`: the same rows as `getTransactions`, most
      recent first. Without an id the sort is Kotlin's `sortedByDescending`,
      which puts rows without timestamp last. */
  function GetTransactionHistory(db: Database, accountId: Option<string>, dbNulls: NullPlacement)
    : (r: seq<Transaction>)
    ensures multiset(r) == multiset(GetTransactions(db, accountId))
    ensures SortedDesc(r, HistoryNullPlacement(accountId, dbNulls))
  {
    match accountId
    case Some(id) => FindByAccountIdOrderByCreatedAtDesc(db.transactions, id, dbNulls)
    case None => SortByCreatedAtDesc(db.transactions, NullsLowest)
  }

  datatype AccountAnalytics = AccountAnalytics(
    accountId: string,
    totalInflow: real,
    totalOutflow: real,
    avgTransaction: real)

  /** `getAccountAnalytics`: each aggregate that is NULL becomes 0. */
  function GetAccountAnalytics(db: Database, accountId: string): (r: AccountAnalytics)
    ensures r.accountId == accountId
    ensures r.totalInflow == MaskedTotal(db.transactions, accountId, Income)
    ensures r.totalOutflow == MaskedTotal(db.transactions, accountId, Expense)
    ensures var rows := FindByAccountId(db.transactions, accountId);
            r.avgTransaction == if |rows| == 0 then 0.0 else Total(rows, Magnitude) / (|rows| as real)
    ensures r.avgTransaction >= 0.0
  {
    var store := db.transactions;
    SelectedTotalIsMaskedTotal(store, accountId, Income);
    SelectedTotalIsMaskedTotal(store, accountId, Expense);
    var avg := AvgTransactionAmountByAccountId(store, accountId);
    assert avg.None? ==> FindByAccountId(store, accountId) == [] by {
      NoRowsIffNoneStored(store, accountId);
    }
    AccountAnalytics(
      accountId,
      SumInflowByAccountId(store, accountId).GetOr(0.0),
      SumOutflowByAccountId(store, accountId).GetOr(0.0),
      AvgTransactionAmountByAccountId(store, accountId).GetOr(0.0))
  }

  /** Each figure is 0 exactly where its aggregate is NULL and is the
      aggregate unchanged otherwise, independently of the other two. */
  lemma {:induction false} AnalyticsDefaultNullToZero(db: Database, accountId: string)
    ensures var r := GetAccountAnalytics(db, accountId);
            var store := db.transactions;
            && (SumInflowByAccountId(store, accountId).None? ==> r.totalInflow == 0.0)
            && (SumInflowByAccountId(store, accountId).Some? ==>
                  r.totalInflow == SumInflowByAccountId(store, accountId).value)
            && (SumOutflowByAccountId(store, accountId).None? ==> r.totalOutflow == 0.0)
            && (SumOutflowByAccountId(store, accountId).Some? ==>
                  r.totalOutflow == SumOutflowByAccountId(store, accountId).value)
            && (AvgTransactionAmountByAccountId(store, accountId).None? ==> r.avgTransaction == 0.0)
            && (AvgTransactionAmountByAccountId(store, accountId).Some? ==>
                  r.avgTransaction == AvgTransactionAmountByAccountId(store, accountId).value)
  {
  }

  /** An account with no rows reports zero inflow, outflow and average. */
  lemma {:induction false} EmptyAccountAnalyticsAreZero(db: Database, accountId: string)
    requires forall t :: t in db.transactions ==> t.accountId != accountId
    ensures GetAccountAnalytics(db, accountId) == AccountAnalytics(accountId, 0.0, 0.0, 0.0)
  {
    NoRowsIffNoneStored(db.transactions, accountId);
  }

  /** Analytics read the same whether the rows are listed or in history order. */
  lemma {:induction false} AnalyticsMatchHistory(db: Database, accountId: string, dbNulls: NullPlacement)
    ensures var h := Database(db.accounts, GetTransactionHistory(db, None, dbNulls));
            GetAccountAnalytics(h, accountId) == GetAccountAnalytics(db, accountId)
  {
    var h := GetTransactionHistory(db, None, dbNulls);
    AggregatesIgnoreStoreOrder(h, db.transactions, accountId);
  }
}
