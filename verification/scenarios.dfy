/** Concrete cases taken from the repository's tests, stated of the model. */
module Scenarios {
  import opened Wrappers
  import opened Ascii
  import opened Entities
  import opened CreatedAtOrder
  import opened Totals
  import opened TransactionRepository
  import opened CurrencyController
  import opened CurrencyService
  import opened ReportService
  import opened ReportController

  lemma {:induction false} UpperExamples()
    ensures Upper("eur") == "EUR" && Upper("usd") == "USD"
    ensures Upper("EUR") == "EUR" && Upper("USD") == "USD" && Upper("RUB") == "RUB"
  {
    UpperOfUpperCase("EUR");
    UpperOfUpperCase("USD");
    UpperOfUpperCase("RUB");
    assert Upper("eur")[0] == 'E' && Upper("eur")[1] == 'U' && Upper("eur")[2] == 'R';
    assert Upper("usd")[0] == 'U' && Upper("usd")[1] == 'S' && Upper("usd")[2] == 'D';
  }

  /** 100 USD is 90 EUR, and 1 USD is 90 RUB. */
  lemma {:induction false} ConversionExamples()
    ensures ViewInCurrency(100.0, "USD", "EUR") == MoneyDto(90.0, "EUR")
    ensures Convert(1.0, "USD", "RUB") == MoneyDto(90.0, "RUB")
  {
    UpperExamples();
    DemoRateKnownPairs("USD", "EUR");
    DemoRateKnownPairs("USD", "RUB");
  }

  /** 100 USD in USD is 100 USD. */
  lemma {:induction false} SameCurrencyExample()
    ensures ViewInCurrency(100.0, "USD", "USD") == MoneyDto(100.0, "USD")
  {
    UpperExamples();
  }

  /** "eur" is selected as "EUR". */
  lemma {:induction false} SelectExample()
    ensures SelectCurrency("eur") == map[SelectedCurrencyKey := "EUR"]
  {
    UpperExamples();
  }

  /** Lower-case codes find the listed rate; an unlisted pair converts 1:1. */
  lemma {:induction false} RateExamples()
    ensures DemoRate("usd", "eur") == 0.9
    ensures DemoRate("EUR", "RUB") == 1.0
  {
    UpperExamples();
    DemoRateKnownPairs("usd", "eur");
    EurToRubIsUnlisted();
  }

  lemma {:induction false} EurToRubIsUnlisted()
    ensures DemoRate("EUR", "RUB") == 1.0
  {
    UpperExamples();
    assert !EqualsIgnoreCase("EUR", "RUB") by {
      assert UpperChar("EUR"[0]) != UpperChar("RUB"[0]);
    }
  }

  lemma {:induction false} UpperOfUpperCase(s: string)
    requires IsUpper(s)
    ensures Upper(s) == s
  {
    UpperCharacterization(s, s);
  }

  const Salary := Transaction("t1", "acc1", 100.0, "USD", Some("Salary"), Income, Some(1))
  const Groceries := Transaction("t2", "acc1", -25.5, "USD", Some("Groceries"), Expense, Some(2))

  /** One INCOME of 100 and one EXPENSE of -25.50 give inflow 100, outflow
      -25.5 and average magnitude 62.75; an account without rows gives zeros. */
  lemma {:induction false} AnalyticsExample()
    ensures GetAccountAnalytics(Database(map[], [Salary, Groceries]), "acc1")
            == AccountAnalytics("acc1", 100.0, -25.5, 62.75)
    ensures GetAccountAnalytics(Database(map[], [Salary, Groceries]), "acc2")
            == AccountAnalytics("acc2", 0.0, 0.0, 0.0)
  {
    var store := [Salary, Groceries];
    assert store[1..] == [Groceries];
    assert FindByAccountId(store, "acc1") == store;
    assert OfType(store, Income) == [Salary];
    assert OfType(store, Expense) == [Groceries];
    assert Total([Groceries], Magnitude) == 25.5 + Total([], Magnitude);
    assert Total(store, Magnitude) == 100.0 + Total([Groceries], Magnitude);
    assert Total([Salary], Amount) == 100.0 + Total([], Amount);
    assert Total([Groceries], Amount) == -25.5 + Total([], Amount);
    assert SumInflowByAccountId(store, "acc1") == Some(100.0);
    assert SumOutflowByAccountId(store, "acc1") == Some(-25.5);
    assert AvgTransactionAmountByAccountId(store, "acc1") == Some(125.5 / 2.0);
    EmptyAccountAnalyticsAreZero(Database(map[], store), "acc2");
  }

  /** Income from yesterday and an expense from today: the history lists the
      expense first. */
  lemma {:induction false} HistoryMostRecentFirst(nulls: NullPlacement)
    ensures var income := Transaction("test-t1", "test-acc-1", 500.0, "USD", None, Income, Some(0));
            var expense := Transaction("test-t2", "test-acc-1", -100.0, "USD", None, Expense, Some(86400));
            var db := Database(map[], [income, expense]);
            GetTransactionHistory(db, Some("test-acc-1"), nulls) == [expense, income]
  {
    var income := Transaction("test-t1", "test-acc-1", 500.0, "USD", None, Income, Some(0));
    var expense := Transaction("test-t2", "test-acc-1", -100.0, "USD", None, Expense, Some(86400));
    var store := [income, expense];
    assert store[1..] == [expense];
    assert FindByAccountId(store, "test-acc-1") == store;
    assert SortByCreatedAtDesc([expense], nulls) == [expense];
    assert Insert(income, [expense], nulls) == [expense, income];
  }

  const Checking := Account("test-acc-2", "TEST-002", 1000.0, "USD", Some(0))

  /** A 1000.00 USD account asked for EUR with the reply (900, "EUR"): the
      statement shows the balance in USD, the converted 900 EUR, and the
      analytics suffixed with USD. */
  lemma {:induction false} ConvertedStatementExample(analytics: AccountAnalytics, elapsed: nat)
    requires elapsed <= TimeoutMillis
    ensures var lines := StatementLines("test-acc-2", Some(Checking), analytics, "EUR",
                                        Delivered(Some(MoneyDto(900.0, "EUR")), elapsed));
            && |lines| == 8
            && lines[3] == BalanceLine(Some(1000.0), "USD")
            && lines[4] == ConvertedBalanceLine("EUR", 900.0)
            && lines[5] == InflowLine(analytics.totalInflow, "USD")
  {
  }

  /** The same statement when the reply is the currency service's own answer. */
  lemma {:induction false} ServedStatementExample(analytics: AccountAnalytics, elapsed: nat)
    requires elapsed <= TimeoutMillis
    ensures var q := ConversionQuery(1000.0, "USD", "EUR");
            StatementLines("test-acc-2", Some(Checking), analytics, "EUR", ServedReply(q, elapsed))[4]
            == ConvertedBalanceLine("EUR", 900.0)
  {
    var q := ConversionQuery(1000.0, "USD", "EUR");
    ServedConversionExample(elapsed);
    assert ConversionRequest(Some(Checking), "EUR") == Some(q);
    assert ConvertedBalance(Some(Checking), "EUR", ServedReply(q, elapsed)) == 900.0;
  }

  lemma {:induction false} ServedConversionExample(elapsed: nat)
    requires elapsed <= TimeoutMillis
    ensures ConvertCurrency(1000.0, "USD", "EUR", ServedReply(ConversionQuery(1000.0, "USD", "EUR"), elapsed))
            == Some(MoneyDto(900.0, "EUR"))
  {
    ConvertCurrencyAgainstService(1000.0, "USD", "EUR", elapsed);
    DemoRateKnownPairs("USD", "EUR");
    UpperExamples();
  }

  /** When the currency service fails, the converted line repeats the balance. */
  lemma {:induction false} FailedConversionExample(analytics: AccountAnalytics)
    ensures StatementLines("test-acc-2", Some(Checking), analytics, "EUR", Failed)[4]
            == ConvertedBalanceLine("EUR", 1000.0)
  {
  }

  /** The statement for "test-acc-2" downloads as "statement-test-acc-2.pdf". */
  lemma {:induction false} FilenameExample()
    ensures StatementFilename("test-acc-2") == "statement-test-acc-2.pdf"
  {
  }
}
