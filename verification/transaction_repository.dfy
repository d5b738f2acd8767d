/** The transaction store and the meaning of its derived finders and JPQL
    aggregate queries, over an in-memory sequence of rows. Following
    section 4.8.5 of the Jakarta Persistence specification, SUM and AVG
    over no qualifying row yield NULL, modelled as `None`. */
module TransactionRepository {
  import opened Wrappers
  import opened Entities
  import opened CreatedAtOrder
  import opened Totals

  type Store = seq<Transaction>

  /** `findByAccountId`: the account's rows, in store order. */
  function FindByAccountId(store: Store, accountId: string): (r: seq<Transaction>)
    ensures forall t :: t in r ==> t.accountId == accountId
    ensures forall t :: multiset(r)[t] == if t.accountId == accountId then multiset(store)[t] else 0
  {
    if |store| == 0 then []
    else
      assert store == [store[0]] + store[1..];
      var rest := FindByAccountId(store[1..], accountId);
      if store[0].accountId == accountId then [store[0]] + rest else rest
  }

  /** `findByAccountIdOrderByCreatedAtDesc`; where the rows without a
      timestamp go is the database's choice, `nulls`. */
  function FindByAccountIdOrderByCreatedAtDesc(store: Store, accountId: string, nulls: NullPlacement)
    : (r: seq<Transaction>)
    ensures SortedDesc(r, nulls)
    ensures multiset(r) == multiset(FindByAccountId(store, accountId))
  {
    SortByCreatedAtDesc(FindByAccountId(store, accountId), nulls)
  }

  /** The rows whose `transactionType` is exactly `kind`, in order. */
  function OfType(rows: seq<Transaction>, kind: string): (r: seq<Transaction>)
    ensures forall t :: t in r ==> t.transactionType == kind
    ensures forall t :: multiset(r)[t] == if t.transactionType == kind then multiset(rows)[t] else 0
  {
    if |rows| == 0 then []
    else
      assert rows == [rows[0]] + rows[1..];
      var rest := OfType(rows[1..], kind);
      if rows[0].transactionType == kind then [rows[0]] + rest else rest
  }

  function Amount(t: Transaction): real { t.amount }

  function Magnitude(t: Transaction): real {
    if t.amount < 0.0 then -t.amount else t.amount
  }

  /** JPQL `SUM(t.amount)` over the selected rows. */
  function Sum(rows: seq<Transaction>): (r: Option<real>)
    ensures r.None? <==> |rows| == 0
  {
    if |rows| == 0 then None else Some(Total(rows, Amount))
  }

  /** JPQL `AVG(ABS(t.amount))` over the selected rows. */
  function AverageMagnitude(rows: seq<Transaction>): (r: Option<real>)
    ensures r.None? <==> |rows| == 0
    ensures r.Some? ==> r.value * (|rows| as real) == Total(rows, Magnitude)
    ensures r.Some? ==> r.value >= 0.0
  {
    if |rows| == 0 then None
    else
      var n := |rows| as real;
      var total := Total(rows, Magnitude);
      TotalMagnitudeNonNegative(rows);
      assert total / n >= 0.0;
      Some(total / n)
  }

  /** `sumInflowByAccountId`: the account's INCOME rows. */
  function SumInflowByAccountId(store: Store, accountId: string): (r: Option<real>)
    ensures r.None? <==> forall t :: t in store ==> !(t.accountId == accountId && t.transactionType == Income)
  {
    NoneIffNoMatch(store, accountId, Income);
    Sum(OfType(FindByAccountId(store, accountId), Income))
  }

  /** `sumOutflowByAccountId`: the account's EXPENSE rows, sign kept. */
  function SumOutflowByAccountId(store: Store, accountId: string): (r: Option<real>)
    ensures r.None? <==> forall t :: t in store ==> !(t.accountId == accountId && t.transactionType == Expense)
  {
    NoneIffNoMatch(store, accountId, Expense);
    Sum(OfType(FindByAccountId(store, accountId), Expense))
  }

  /** `avgTransactionAmountByAccountId`: all of the account's rows, any type. */
  function AvgTransactionAmountByAccountId(store: Store, accountId: string): (r: Option<real>)
    ensures r.None? <==> forall t :: t in store ==> t.accountId != accountId
    ensures r.Some? ==> r.value >= 0.0
    ensures var rows := FindByAccountId(store, accountId);
            r.Some? ==> r.value == Total(rows, Magnitude) / (|rows| as real)
  {
    var rows := FindByAccountId(store, accountId);
    NoRowsIffNoneStored(store, accountId);
    AverageMagnitude(rows)
  }

  lemma {:induction false} TotalMagnitudeNonNegative(rows: seq<Transaction>)
    ensures Total(rows, Magnitude) >= 0.0
  {
    if |rows| > 0 {
      TotalMagnitudeNonNegative(rows[1..]);
    }
  }

  lemma {:induction false} NoRowsIffNoneStored(store: Store, accountId: string)
    ensures FindByAccountId(store, accountId) == [] <==> forall t :: t in store ==> t.accountId != accountId
  {
    var rows := FindByAccountId(store, accountId);
    if rows != [] {
      assert rows[0] in multiset(rows);
    }
    forall t | t in store && t.accountId == accountId ensures rows != [] {
      assert multiset(rows)[t] > 0;
    }
  }

  lemma {:induction false} NoneIffNoMatch(store: Store, accountId: string, kind: string)
    ensures OfType(FindByAccountId(store, accountId), kind) == [] <==>
            forall t :: t in store ==> !(t.accountId == accountId && t.transactionType == kind)
  {
    var rows := OfType(FindByAccountId(store, accountId), kind);
    if rows != [] {
      assert rows[0] in multiset(rows);
    }
    forall t | t in store && t.accountId == accountId && t.transactionType == kind ensures rows != [] {
      assert multiset(rows)[t] > 0;
    }
  }

  /** The SQL reading of `SUM(t.amount) ... WHERE accountId AND type`: every
      stored row contributes its amount when it qualifies and nothing otherwise. */
  function MaskedTotal(store: Store, accountId: string, kind: string): real {
    if |store| == 0 then 0.0
    else
      var t := store[0];
      (if t.accountId == accountId && t.transactionType == kind then t.amount else 0.0)
      + MaskedTotal(store[1..], accountId, kind)
  }

  /** Selecting the account's rows of one type and adding their amounts is
      the row-by-row masked sum over the whole store. */
  lemma {:induction false} SelectedTotalIsMaskedTotal(store: Store, accountId: string, kind: string)
    ensures Total(OfType(FindByAccountId(store, accountId), kind), Amount) == MaskedTotal(store, accountId, kind)
  {
    if |store| > 0 {
      SelectedTotalIsMaskedTotal(store[1..], accountId, kind);
    }
  }

  /** A present inflow or outflow is the masked sum of its type. */
  lemma {:induction false} SumsAreMaskedTotals(store: Store, accountId: string)
    ensures SumInflowByAccountId(store, accountId).Some? ==>
            SumInflowByAccountId(store, accountId).value == MaskedTotal(store, accountId, Income)
    ensures SumOutflowByAccountId(store, accountId).Some? ==>
            SumOutflowByAccountId(store, accountId).value == MaskedTotal(store, accountId, Expense)
  {
    SelectedTotalIsMaskedTotal(store, accountId, Income);
    SelectedTotalIsMaskedTotal(store, accountId, Expense);
  }

  /** Outflow keeps the sign of its rows: when every EXPENSE row of the
      account is a debit (amount <= 0), the outflow is at most 0. */
  lemma {:induction false} OutflowKeepsSign(store: Store, accountId: string)
    requires forall t :: t in store && t.accountId == accountId && t.transactionType == Expense ==> t.amount <= 0.0
    ensures MaskedTotal(store, accountId, Expense) <= 0.0
    ensures SumOutflowByAccountId(store, accountId).Some? ==> SumOutflowByAccountId(store, accountId).value <= 0.0
  {
    SumsAreMaskedTotals(store, accountId);
    if |store| > 0 {
      assert store[0] in store;
      assert forall t :: t in store[1..] ==> t in store;
      OutflowKeepsSign(store[1..], accountId);
    }
  }

  lemma {:induction false} FindByAccountIdConcat(a: Store, b: Store, accountId: string)
    ensures FindByAccountId(a + b, accountId) == FindByAccountId(a, accountId) + FindByAccountId(b, accountId)
  {
    if |a| > 0 {
      assert (a + b)[1..] == a[1..] + b;
      FindByAccountIdConcat(a[1..], b, accountId);
    } else {
      assert a + b == b;
    }
  }

  lemma {:induction false} OfTypeConcat(a: seq<Transaction>, b: seq<Transaction>, kind: string)
    ensures OfType(a + b, kind) == OfType(a, kind) + OfType(b, kind)
  {
    if |a| > 0 {
      assert (a + b)[1..] == a[1..] + b;
      OfTypeConcat(a[1..], b, kind);
    } else {
      assert a + b == b;
    }
  }

  /** The filtered rows of two stores holding the same rows agree as multisets. */
  lemma {:induction false} SameRowsSameSelection(s1: Store, s2: Store, accountId: string, kind: string)
    requires multiset(s1) == multiset(s2)
    ensures multiset(FindByAccountId(s1, accountId)) == multiset(FindByAccountId(s2, accountId))
    ensures multiset(OfType(FindByAccountId(s1, accountId), kind)) ==
            multiset(OfType(FindByAccountId(s2, accountId), kind))
  {
    var r1, r2 := FindByAccountId(s1, accountId), FindByAccountId(s2, accountId);
    assert forall t :: multiset(r1)[t] == multiset(r2)[t];
    assert multiset(r1) == multiset(r2);
    var o1, o2 := OfType(r1, kind), OfType(r2, kind);
    assert forall t :: multiset(o1)[t] == multiset(o2)[t];
  }

  /** The three aggregates depend on which rows are stored, not on their order. */
  lemma {:induction false} AggregatesIgnoreStoreOrder(s1: Store, s2: Store, accountId: string)
    requires multiset(s1) == multiset(s2)
    ensures SumInflowByAccountId(s1, accountId) == SumInflowByAccountId(s2, accountId)
    ensures SumOutflowByAccountId(s1, accountId) == SumOutflowByAccountId(s2, accountId)
    ensures AvgTransactionAmountByAccountId(s1, accountId) == AvgTransactionAmountByAccountId(s2, accountId)
  {
    SameRowsSameSelection(s1, s2, accountId, Income);
    SameRowsSameSelection(s1, s2, accountId, Expense);
    var r1, r2 := FindByAccountId(s1, accountId), FindByAccountId(s2, accountId);
    var i1, i2 := OfType(r1, Income), OfType(r2, Income);
    var e1, e2 := OfType(r1, Expense), OfType(r2, Expense);
    assert |i1| == |multiset(i1)| == |multiset(i2)| == |i2|;
    assert |e1| == |multiset(e1)| == |multiset(e2)| == |e2|;
    assert |r1| == |multiset(r1)| == |multiset(r2)| == |r2|;
    TotalPermutationInvariant(i1, i2, Amount);
    TotalPermutationInvariant(e1, e2, Amount);
    TotalPermutationInvariant(r1, r2, Magnitude);
  }

  /** The aggregates of an account are a function of its rows alone. */
  lemma {:induction false} AggregatesDependOnlyOnRows(s1: Store, s2: Store, accountId: string)
    requires FindByAccountId(s1, accountId) == FindByAccountId(s2, accountId)
    ensures SumInflowByAccountId(s1, accountId) == SumInflowByAccountId(s2, accountId)
    ensures SumOutflowByAccountId(s1, accountId) == SumOutflowByAccountId(s2, accountId)
    ensures AvgTransactionAmountByAccountId(s1, accountId) == AvgTransactionAmountByAccountId(s2, accountId)
  {
  }

  /** Adding rows of other accounts anywhere in the store (or removing them)
      changes neither the account's rows nor its aggregates. */
  lemma {:induction false} OtherAccountsAreIgnored(a: Store, extra: Store, b: Store, accountId: string)
    requires forall t :: t in extra ==> t.accountId != accountId
    ensures FindByAccountId(a + extra + b, accountId) == FindByAccountId(a + b, accountId)
    ensures SumInflowByAccountId(a + extra + b, accountId) == SumInflowByAccountId(a + b, accountId)
    ensures SumOutflowByAccountId(a + extra + b, accountId) == SumOutflowByAccountId(a + b, accountId)
    ensures AvgTransactionAmountByAccountId(a + extra + b, accountId) == AvgTransactionAmountByAccountId(a + b, accountId)
  {
    FindByAccountIdConcat(a + extra, b, accountId);
    FindByAccountIdConcat(a, extra, accountId);
    FindByAccountIdConcat(a, b, accountId);
    NoRowsIffNoneStored(extra, accountId);
    assert FindByAccountId(a + extra, accountId) == FindByAccountId(a, accountId);
    AggregatesDependOnlyOnRows(a + extra + b, a + b, accountId);
  }

  /** A row of the account whose type is neither INCOME nor EXPENSE leaves
      inflow and outflow alone but is one more row in the average. */
  lemma {:induction false} OtherTypeCountsOnlyTowardAverage(store: Store, t: Transaction)
    requires t.transactionType != Income && t.transactionType != Expense
    ensures SumInflowByAccountId(store + [t], t.accountId) == SumInflowByAccountId(store, t.accountId)
    ensures SumOutflowByAccountId(store + [t], t.accountId) == SumOutflowByAccountId(store, t.accountId)
    ensures var rows := FindByAccountId(store, t.accountId);
            AvgTransactionAmountByAccountId(store + [t], t.accountId) ==
            Some((Total(rows, Magnitude) + Magnitude(t)) / ((|rows| + 1) as real))
  {
    OtherTypeLeavesSums(store, t, Income);
    OtherTypeLeavesSums(store, t, Expense);
    AppendedRowAverage(store, t);
  }

  lemma {:induction false} OtherTypeLeavesSums(store: Store, t: Transaction, kind: string)
    requires t.transactionType != kind
    ensures OfType(FindByAccountId(store + [t], t.accountId), kind) == OfType(FindByAccountId(store, t.accountId), kind)
  {
    var rows := FindByAccountId(store, t.accountId);
    AppendOwnRow(store, t);
    OfTypeConcat(rows, [t], kind);
    assert OfType([t], kind) == [];
    assert OfType(rows, kind) + [] == OfType(rows, kind);
  }

  lemma {:induction false} AppendedRowAverage(store: Store, t: Transaction)
    ensures var rows := FindByAccountId(store, t.accountId);
            AvgTransactionAmountByAccountId(store + [t], t.accountId) ==
            Some((Total(rows, Magnitude) + Magnitude(t)) / ((|rows| + 1) as real))
  {
    var rows := FindByAccountId(store, t.accountId);
    AppendOwnRow(store, t);
    TotalConcat(rows, [t], Magnitude);
    assert Total([t], Magnitude) == Magnitude(t);
  }

  lemma {:induction false} AppendOwnRow(store: Store, t: Transaction)
    ensures FindByAccountId(store + [t], t.accountId) == FindByAccountId(store, t.accountId) + [t]
  {
    FindByAccountIdConcat(store, [t], t.accountId);
    assert FindByAccountId([t], t.accountId) == [t];
  }

}
