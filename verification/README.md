# Demo bank: currency rates, account analytics and statements

A model of the two services of a small demo banking system. The **currency
service** holds a fixed table of demo exchange rates and converts amounts with
it. The **report service** reads accounts and transactions, computes inflow,
outflow and average-transaction analytics with three JPQL aggregate queries,
asks the currency service to convert a balance (absorbing every failure into a
fallback), and assembles the ordered lines of a PDF account statement.

Everything is modelled as pure functions over immutable data:

- `Ascii`: `uppercase()` and `equals(ignoreCase = true)` on ASCII letters.
- `CurrencyController`: `demoRate`, the two conversion endpoints and `selectCurrency`; `MoneyDto`.
- `Entities`: `Account` and `Transaction` as plain datatypes; amounts are exact reals.
- `CreatedAtOrder`: "most recent first" ordering by `createdAt`, with a stable insertion sort.
- `TransactionRepository`: the store is a `seq<Transaction>`; the derived finders and the
  three aggregate queries, which yield `None` when no row qualifies (section 4.8.5 of the
  Jakarta Persistence specification).
- `ReportService`: account lookup, listings, history, and analytics with NULL read as 0.
- `CurrencyService`: how the reply of the conversion call becomes the client's result.
- `ReportController`: the statement lines, the file name and `toDto`.
- `Scenarios`: concrete cases from the repository's tests.

Parameters stand for what the model cannot see. The reply of the currency
service is a `Reply`: a delivered body (possibly empty) with its latency in
milliseconds, or a failure. Where a JPQL `ORDER BY ... DESC` puts NULL
timestamps is a `NullPlacement`, because the query language leaves it to the
database. Number printing is a `NumberFormat` of two functions.

Four behaviours of the code worth noting:

- On success the client returns the body of the currency service unchanged. It does not upper-case it.
- The fallback result carries the target code exactly as the caller passed it.
  It is not upper-cased. See `FallbackKeepsTargetSpelling`.
- "USD" is the default account currency only when the account is missing. An
  existing account with an empty currency keeps "".
- The controller compares account and target currency exactly, so case matters.
  The rate table compares them ignoring case. See `CaseMismatchStillConverts`.

## Model

| member | source | states |
|---|---|---|
| Ascii.Upper | services/currency/src/main/kotlin/com/reindefox/currency/controller/CurrencyController.kt:27 | upper-casing maps each character to its upper-case letter, keeps the length, and gives an upper-case string equal to the input ignoring case |
| Ascii.EqualsIgnoreCase | services/currency/src/main/kotlin/com/reindefox/currency/controller/CurrencyController.kt:40 | identical codes are equal ignoring case, and codes equal ignoring case have the same length |
| Ascii.EqualsIgnoreCaseIsEquivalence | services/currency/src/main/kotlin/com/reindefox/currency/controller/CurrencyController.kt:40 | comparing codes ignoring case is reflexive, symmetric and transitive |
| Ascii.EqualsIgnoreCaseIffSameUpper | services/currency/src/main/kotlin/com/reindefox/currency/controller/CurrencyController.kt:40-41 | two codes are equal ignoring case exactly when their upper-cased forms are equal |
| Ascii.UpperCharacterization | services/currency/src/main/kotlin/com/reindefox/currency/controller/CurrencyController.kt:22 | `to.uppercase()` is the only upper-case string equal to `to` ignoring case |
| Ascii.UpperIdempotent | services/currency/src/main/kotlin/com/reindefox/currency/controller/CurrencyController.kt:26-27 | upper-casing twice is upper-casing once |
| CurrencyController.DemoRate | services/currency/src/main/kotlin/com/reindefox/currency/controller/CurrencyController.kt:39-47 | every rate is strictly positive and is one of 0.9, 1.1, 90, 0.011 or 1; the same code in any letter case gives 1 |
| CurrencyController.DemoRateIsTableLookup | services/currency/src/main/kotlin/com/reindefox/currency/controller/CurrencyController.kt:39-47 | the rate is the fixed-table entry for the upper-cased pair, or 1 for a pair not in the table; the same-code shortcut never contradicts the table |
| CurrencyController.DemoRateIsOneUnlessListed | services/currency/src/main/kotlin/com/reindefox/currency/controller/CurrencyController.kt:46 | a rate other than 1 occurs exactly for the four listed pairs; an unknown pair is not an error |
| CurrencyController.DemoRateKnownPairs | services/currency/src/main/kotlin/com/reindefox/currency/controller/CurrencyController.kt:41-45 | USD to EUR is 0.9, EUR to USD 1.1, USD to RUB 90 and RUB to USD 0.011, in any letter case on either side |
| CurrencyController.ViewInCurrency | services/currency/src/main/kotlin/com/reindefox/currency/controller/CurrencyController.kt:15-23 | the result is labelled with the upper-cased target, the amount is the input times the demo rate, and a same-currency request returns the amount unchanged |
| CurrencyController.Convert | services/currency/src/main/kotlin/com/reindefox/currency/controller/CurrencyController.kt:29-37 | the same three guarantees for the POST endpoint |
| CurrencyController.ConvertAgreesWithView | services/currency/src/main/kotlin/com/reindefox/currency/controller/CurrencyController.kt:15-37 | both endpoints give identical results for identical inputs; the currency is `to.uppercase()` on every rate branch |
| CurrencyController.SelectCurrency | services/currency/src/main/kotlin/com/reindefox/currency/controller/CurrencyController.kt:25-27 | the single key `selectedCurrency` maps to an upper-case code equal to the input ignoring case |
| CurrencyController.SelectCurrencyIdempotent | services/currency/src/main/kotlin/com/reindefox/currency/controller/CurrencyController.kt:25-27 | selecting the selected currency again gives the same answer |
| CreatedAtOrder.SortByCreatedAtDesc | services/report/src/main/kotlin/com/reindefox/report/service/ReportService.kt:31 | the result is a permutation of the input whose timestamps never increase |
| CreatedAtOrder.SortedHeadIsMostRecent | services/report/src/test/kotlin/com/reindefox/report/controller/ReportControllerIntegrationTest.kt:116-122 | the first transaction of the history is at least as recent as every other |
| TransactionRepository.FindByAccountId | services/report/src/main/kotlin/com/reindefox/report/repository/TransactionRepository.kt:11 | only rows of the account are returned, each as often as it is stored; no row of another account appears |
| TransactionRepository.FindByAccountIdOrderByCreatedAtDesc | services/report/src/main/kotlin/com/reindefox/report/repository/TransactionRepository.kt:13 | a permutation of the account's rows with non-increasing `createdAt` |
| TransactionRepository.SumInflowByAccountId | services/report/src/main/kotlin/com/reindefox/report/repository/TransactionRepository.kt:15-16 | NULL exactly when the account has no INCOME row |
| TransactionRepository.SumOutflowByAccountId | services/report/src/main/kotlin/com/reindefox/report/repository/TransactionRepository.kt:18-19 | NULL exactly when the account has no EXPENSE row |
| TransactionRepository.AvgTransactionAmountByAccountId | services/report/src/main/kotlin/com/reindefox/report/repository/TransactionRepository.kt:21-22 | NULL exactly when the account has no row at all; otherwise the non-negative mean of absolute amounts over all its rows of any type |
| TransactionRepository.AverageMagnitude | services/report/src/main/kotlin/com/reindefox/report/repository/TransactionRepository.kt:21 | an average over rows, times their number, is the total of absolute amounts, and is never negative |
| TransactionRepository.SelectedTotalIsMaskedTotal | services/report/src/main/kotlin/com/reindefox/report/repository/TransactionRepository.kt:15-19 | summing the account's rows of one type equals the SQL reading: each stored row adds its amount when it qualifies and 0 otherwise |
| TransactionRepository.SumsAreMaskedTotals | services/report/src/main/kotlin/com/reindefox/report/repository/TransactionRepository.kt:15-19 | a present inflow or outflow equals that masked sum over the whole store |
| TransactionRepository.OutflowKeepsSign | services/report/src/main/kotlin/com/reindefox/report/repository/TransactionRepository.kt:18-19 | outflow keeps the sign of its rows: if every EXPENSE row is a debit, the outflow is at most 0 |
| Totals.TotalPermutationInvariant | services/report/src/main/kotlin/com/reindefox/report/repository/TransactionRepository.kt:15-22 | a sum does not depend on the order of its rows |
| TransactionRepository.AggregatesIgnoreStoreOrder | services/report/src/main/kotlin/com/reindefox/report/repository/TransactionRepository.kt:15-22 | two stores holding the same rows in any order give the same three aggregates |
| TransactionRepository.AggregatesDependOnlyOnRows | services/report/src/main/kotlin/com/reindefox/report/repository/TransactionRepository.kt:15-22 | the three aggregates depend only on the account's own rows |
| TransactionRepository.OtherAccountsAreIgnored | services/report/src/main/kotlin/com/reindefox/report/repository/TransactionRepository.kt:15-22 | inserting or removing rows of other accounts anywhere leaves the account's rows and all three aggregates unchanged |
| TransactionRepository.OtherTypeCountsOnlyTowardAverage | services/report/src/main/kotlin/com/reindefox/report/repository/TransactionRepository.kt:15-22 | a row typed neither INCOME nor EXPENSE changes neither sum but joins the average as one more row |
| ReportService.GetAccount | services/report/src/main/kotlin/com/reindefox/report/service/ReportService.kt:15-17 | present exactly when the id is stored, and then the stored account itself, which carries that id when accounts are keyed by id |
| ReportService.GetTransactions | services/report/src/main/kotlin/com/reindefox/report/service/ReportService.kt:19-25 | the whole store without an id; with an id, exactly the account's rows with their multiplicities |
| ReportService.GetTransactionHistory | services/report/src/main/kotlin/com/reindefox/report/service/ReportService.kt:27-33 | a permutation of the matching listing, most recent first; without an id, rows lacking a timestamp come last |
| ReportService.GetAccountAnalytics | services/report/src/main/kotlin/com/reindefox/report/service/ReportService.kt:35-46 | carries the requested id; inflow and outflow are the masked sums, 0 when no row qualifies; the average is the mean magnitude, 0 for an account without rows, never negative |
| ReportService.AnalyticsDefaultNullToZero | services/report/src/main/kotlin/com/reindefox/report/service/ReportService.kt:36-38 | each figure is 0 exactly where its own aggregate is NULL and otherwise passes the aggregate through |
| ReportService.EmptyAccountAnalyticsAreZero | services/report/src/main/kotlin/com/reindefox/report/service/ReportService.kt:35-46 | an account without rows reports inflow, outflow and average of 0 |
| ReportService.AnalyticsMatchHistory | services/report/src/main/kotlin/com/reindefox/report/service/ReportService.kt:27-46 | analytics computed over the store in history order equal those over the store as listed |
| CurrencyService.ConvertCurrency | services/report/src/main/kotlin/com/reindefox/report/service/CurrencyService.kt:20-27 | a timely success passes the body through; an error or a timeout yields the input amount labelled with `to` as given; only an empty body in time yields no value, and nothing is raised |
| CurrencyService.TimeoutIsAnError | services/report/src/main/kotlin/com/reindefox/report/service/CurrencyService.kt:25-26 | a reply later than five seconds is treated exactly like a failed call |
| CurrencyService.ConvertCurrencyAgainstService | services/report/src/main/kotlin/com/reindefox/report/service/CurrencyService.kt:22-24 | against the currency service answering in time, the client returns the amount times the demo rate, labelled with the upper-cased target |
| CurrencyService.FallbackKeepsTargetSpelling | services/report/src/main/kotlin/com/reindefox/report/service/CurrencyService.kt:26 | the fallback for target "eur" is labelled "eur", although the service itself would answer "EUR" |
| ReportController.TargetCurrency | services/report/src/main/kotlin/com/reindefox/report/controller/ReportController.kt:69 | the target is the parameter when it is given and non-empty, and exactly "USD" when it is missing or empty |
| ReportController.AccountCurrency | services/report/src/main/kotlin/com/reindefox/report/controller/ReportController.kt:75 | the account's own currency for an existing account, "USD" for a missing one |
| ReportController.ShowsConversion | services/report/src/main/kotlin/com/reindefox/report/controller/ReportController.kt:76-91 | a converted line is shown exactly when the account currency ("USD" if missing) differs from the target as written; when it does not, the two are also equal ignoring case |
| ReportController.ConversionRequest | services/report/src/main/kotlin/com/reindefox/report/controller/ReportController.kt:75-81 | a conversion is requested exactly for an existing account whose currency differs from the target, and it forwards the balance, the account currency and the target unmodified |
| ReportController.ConvertedBalance | services/report/src/main/kotlin/com/reindefox/report/controller/ReportController.kt:76-84 | 0 for a missing account; the balance when no request is made, when the call fails or times out, or when a timely reply has an empty body; the amount of the body when a request is made and a timely reply carries one |
| ReportController.StatementLines | services/report/src/main/kotlin/com/reindefox/report/controller/ReportController.kt:86-97 | 8 lines when the currencies differ and 7 otherwise, in the fixed order title, id, number, balance, [converted], inflow, outflow, average; the number and balance lines carry the stored account's number and balance, or the placeholders for a missing account; a converted line appears exactly when the currencies differ; every currency suffix is the account currency, never the target |
| ReportController.StatementFilename | services/report/src/main/kotlin/com/reindefox/report/controller/ReportController.kt:105 | the name is "statement-", then the account id, then ".pdf", and the id can be read back from it |
| ReportController.GenerateAccountStatement | services/report/src/main/kotlin/com/reindefox/report/controller/ReportController.kt:71-105 | the statement has the fixed title, the per-account file name and 7 or 8 lines; for a stored id the number and balance lines show that account's number, balance and currency; the last three lines are the masked INCOME sum, the masked EXPENSE sum and the mean absolute amount of the account's rows (0 without rows), suffixed with the account currency |
| ReportController.Render | services/report/src/main/kotlin/com/reindefox/report/controller/ReportController.kt:87-96 | each line prints its caption and then its value: the path id, the stored account number or "N/A", the stored balance through the decimal format or "0.00", and the converted, inflow, outflow and average amounts through the double format; the balance, inflow, outflow and average lines end with a space and their currency code |
| ReportController.MissingAccountLines | services/report/src/main/kotlin/com/reindefox/report/controller/ReportController.kt:75-93 | for a missing account the number shows "N/A" and the balance "0.00 USD"; a converted balance of 0 is still shown whenever the target is not exactly "USD" |
| ReportController.MissingAccountStatement | services/report/src/main/kotlin/com/reindefox/report/controller/ReportController.kt:71-93 | the same placeholders for the endpoint called with an id that is not stored |
| ReportController.NoConversionForSameCurrency | services/report/src/main/kotlin/com/reindefox/report/controller/ReportController.kt:76-93 | when the target is the account's own currency, no request is made and 7 lines are produced |
| ReportController.CaseMismatchStillConverts | services/report/src/main/kotlin/com/reindefox/report/controller/ReportController.kt:76-92 | a USD account asked for "usd" still requests a conversion and shows a "Balance in usd" line, which the service answers at rate 1 |
| ReportController.ToDto | services/report/src/main/kotlin/com/reindefox/report/controller/ReportController.kt:109-116 | id, amount and currency are copied; the description is "" exactly when it is missing or empty |
| Scenarios.ConversionExamples | services/currency/src/test/kotlin/com/reindefox/currency/controller/CurrencyControllerTest.kt:20-66 | 100 USD is 90 EUR and 1 USD is 90 RUB |
| Scenarios.SameCurrencyExample | services/currency/src/test/kotlin/com/reindefox/currency/controller/CurrencyControllerTest.kt:33-43 | 100 USD in USD is 100 USD |
| Scenarios.SelectExample | services/currency/src/test/kotlin/com/reindefox/currency/controller/CurrencyControllerTest.kt:46-53 | "eur" is selected as "EUR" |
| Scenarios.RateExamples | services/currency/src/main/kotlin/com/reindefox/currency/controller/CurrencyController.kt:39-47 | "usd" to "eur" finds 0.9, and the unlisted pair EUR to RUB gives 1 |
| Scenarios.EurToRubIsUnlisted | services/currency/src/main/kotlin/com/reindefox/currency/controller/CurrencyController.kt:46 | EUR to RUB is not a listed pair and converts one to one |
| Scenarios.AnalyticsExample | services/report/src/test/kotlin/com/reindefox/report/service/ReportServiceTest.kt:118-146 | INCOME +100 and EXPENSE -25.5 give 100, -25.5 and 62.75; an account without rows gives zeros |
| Scenarios.HistoryMostRecentFirst | services/report/src/test/kotlin/com/reindefox/report/controller/ReportControllerIntegrationTest.kt:116-122 | yesterday's income and today's expense are listed expense first |
| Scenarios.ConvertedStatementExample | services/report/src/main/kotlin/com/reindefox/report/controller/ReportController.kt:76-96 | a 1000 USD account asked for EUR shows a balance line of 1000 in USD and a converted line of 900 in EUR when the reply carries that answer |
| Scenarios.ServedConversionExample | services/report/src/main/kotlin/com/reindefox/report/service/CurrencyService.kt:20-27 | a timely reply from the currency service converts 1000 USD into 900 EUR |
| Scenarios.ServedStatementExample | services/report/src/main/kotlin/com/reindefox/report/controller/ReportController.kt:76-92 | with the currency service's own timely answer the converted line of that statement is 900 EUR |
| Scenarios.FailedConversionExample | services/report/src/main/kotlin/com/reindefox/report/controller/ReportController.kt:76-92 | when the currency service fails, the converted line repeats the balance |
| Scenarios.FilenameExample | services/report/src/main/kotlin/com/reindefox/report/controller/ReportController.kt:105 | the statement for "test-acc-2" is named "statement-test-acc-2.pdf" |

## Left out

- PDF rendering (`generateSimplePdf`) is a call into PDFBox. The ordered line list and the title are the output of the model.
- HTTP routing, `ResponseEntity` building, the content type and the `inline;` disposition prefix are framework wiring. Only the file name is modelled.
- The `WebClient`/Reactor pipeline, its timer and `block()` are reduced to the `Reply` they end with.
- Retries and concurrency are not modelled. The source makes one attempt per request.
- The endpoints `getTransactions`, `getTransactionHistory` and `getAccountAnalytics` of the report controller only map results to DTOs field by field. `ToDto` is modelled; the list mapping is not.
- JPA, Flyway, Postgres and `AccountRepository` are external storage. They are replaced by a map of accounts and a sequence of rows. `findByAccountNumber` is unused by the core.
- `findAll()` returns rows in store order. A database gives no order.
- The repository's `ORDER BY` does not promise an order among rows with equal timestamps. The model's sort is stable, and its contract promises only sortedness and permutation.
- IEEE `Double` arithmetic, `BigDecimal.toDouble()` and Kotlin's number-to-text conversion are not modelled. Amounts are exact reals, and printing is an abstract `NumberFormat`. Results that depend on rounding are not stated.
- Unicode case mapping is not modelled. Only ASCII letters change case. Non-ASCII characters are left as they are.
- A reply that arrives exactly at the five-second mark counts as in time. In the source, the timer and the reply race at that instant.
- Build scripts and test harnesses (Testcontainers, MockMvc, Mockito) are not logic. The test of a `/help/pdf` endpoint has no endpoint in the source. The statement tests of the service integration suite stub a client that is never injected. Neither test shapes the model.
- The entity timestamps (`LocalDateTime`) become integers on one clock.
