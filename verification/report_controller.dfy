/** The statement endpoint of the report service: which balance is shown,
    whether a conversion is requested, and the ordered text lines handed to
    the PDF renderer; plus the download file name and the transaction DTO. */
module ReportController {
  import opened Wrappers
  import opened Entities
  import opened CurrencyController
  import opened CurrencyService
  import opened Totals
  import opened TransactionRepository
  import opened ReportService

  const DefaultCurrency := "USD"
  const StatementTitle := "Account Statement"

  /** `targetCurrency` with its declared default, which the web layer also
      applies when the parameter is present but empty. */
  function TargetCurrency(param: Option<string>): (target: string)
    ensures target != ""
    ensures param.Some? && param.value != "" ==> target == param.value
    ensures !(param.Some? && param.value != "") ==> target == DefaultCurrency
  {
    if param.Some? && param.value != "" then param.value else DefaultCurrency
  }

  /** The account's own currency, "USD" when the account is missing. */
  function AccountCurrency(account: Option<Account>): (c: string)
    ensures account.Some? ==> c == account.value.currency
    ensures account.None? ==> c == DefaultCurrency
  {
    if account.Some? then account.value.currency else DefaultCurrency
  }

  /** Whether the statement shows a converted balance. The comparison is
      exact: "usd" and "USD" differ. */
  predicate ShowsConversion(account: Option<Account>, target: string): (shows: bool)
    ensures account.None? ==> (shows <==> target != DefaultCurrency)
    ensures account.Some? ==> (shows <==> account.value.currency != target)
    ensures !shows ==> Ascii.EqualsIgnoreCase(AccountCurrency(account), target)
  {
    AccountCurrency(account) != target
  }

  /** The query sent to the currency service, if any: only for an existing
      account whose currency differs from the target, carrying its balance,
      its currency and the target unmodified. */
  function ConversionRequest(account: Option<Account>, target: string): (q: Option<ConversionQuery>)
    ensures q.Some? <==> account.Some? && ShowsConversion(account, target)
    ensures q.Some? ==>
              q.value.amount == account.value.balance && q.value.from == account.value.currency && q.value.to == target
  {
    if account.Some? && ShowsConversion(account, target) then
      Some(ConversionQuery(account.value.balance, account.value.currency, target))
    else None
  }

  /** The balance shown in the target currency. `reply` is how the call to
      the currency service ends, and is consulted only when a request is made. */
  function ConvertedBalance(account: Option<Account>, target: string, reply: Reply): (b: real)
    ensures account.None? ==> b == 0.0
    ensures ConversionRequest(account, target).None? && account.Some? ==> b == account.value.balance
    ensures ConversionRequest(account, target).Some? && reply.Delivered? && !TimedOut(reply) && reply.body.Some? ==>
              b == reply.body.value.amount
    ensures ConversionRequest(account, target).Some? && reply.Delivered? && !TimedOut(reply) && reply.body.None? ==>
              b == account.value.balance
    ensures reply.Failed? || TimedOut(reply) ==> b == if account.Some? then account.value.balance else 0.0
  {
    match ConversionRequest(account, target)
    case Some(q) =>
      (match ConvertCurrency(q.amount, q.from, q.to, reply)
       case Some(money) => money.amount
       case None => account.value.balance)
    case None =>
      if account.Some? then account.value.balance else 0.0
  }

  /** One line of the statement, before number formatting. */
  datatype Line =
    | TitleLine
    | AccountIdLine(accountId: string)
    | AccountNumberLine(number: Option<string>)      // None is shown as "N/A"
    | BalanceLine(balance: Option<real>, currency: string)  // None is shown as "0.00"
    | ConvertedBalanceLine(target: string, amount: real)
    | InflowLine(amount: real, currency: string)
    | OutflowLine(amount: real, currency: string)
    | AverageLine(amount: real, currency: string)

  /** Position of each kind of line in a statement. */
  function Rank(line: Line): nat {
    match line
    case TitleLine => 0
    case AccountIdLine(_) => 1
    case AccountNumberLine(_) => 2
    case BalanceLine(_, _) => 3
    case ConvertedBalanceLine(_, _) => 4
    case InflowLine(_, _) => 5
    case OutflowLine(_, _) => 6
    case AverageLine(_, _) => 7
  }

  /** The currency a line is suffixed with, if it has one. */
  function Suffix(line: Line): Option<string> {
    match line
    case BalanceLine(_, c) => Some(c)
    case InflowLine(_, c) => Some(c)
    case OutflowLine(_, c) => Some(c)
    case AverageLine(_, c) => Some(c)
    case _ => None
  }

  /** The lines of `generateAccountStatement` for an account that may be
      missing, its analytics, the target currency and the conversion reply. */
  function StatementLines(accountId: string, account: Option<Account>, analytics: AccountAnalytics,
                          target: string, reply: Reply): (lines: seq<Line>)
    ensures |lines| == if ShowsConversion(account, target) then 8 else 7
    ensures forall i, j :: 0 <= i < j < |lines| ==> Rank(lines[i]) < Rank(lines[j])
    ensures (exists i :: 0 <= i < |lines| && lines[i].ConvertedBalanceLine?) <==> ShowsConversion(account, target)
    ensures forall i :: 0 <= i < |lines| && Suffix(lines[i]).Some? ==> Suffix(lines[i]).value == AccountCurrency(account)
    ensures lines[0] == TitleLine && lines[1] == AccountIdLine(accountId)
    ensures lines[2] == AccountNumberLine(if account.Some? then Some(account.value.accountNumber) else None)
    ensures lines[3] == BalanceLine(if account.Some? then Some(account.value.balance) else None, AccountCurrency(account))
    ensures ShowsConversion(account, target) ==>
              lines[4] == ConvertedBalanceLine(target, ConvertedBalance(account, target, reply))
    ensures lines[|lines| - 3] == InflowLine(analytics.totalInflow, AccountCurrency(account))
    ensures lines[|lines| - 2] == OutflowLine(analytics.totalOutflow, AccountCurrency(account))
    ensures lines[|lines| - 1] == AverageLine(analytics.avgTransaction, AccountCurrency(account))
  {
    var currency := AccountCurrency(account);
    var number := AccountNumberLine(if account.Some? then Some(account.value.accountNumber) else None);
    var balance := BalanceLine(if account.Some? then Some(account.value.balance) else None, currency);
    var inflow := InflowLine(analytics.totalInflow, currency);
    var outflow := OutflowLine(analytics.totalOutflow, currency);
    var average := AverageLine(analytics.avgTransaction, currency);
    if currency != target then
      var converted := ConvertedBalanceLine(target, ConvertedBalance(account, target, reply));
      var lines := [TitleLine, AccountIdLine(accountId), number, balance, converted, inflow, outflow, average];
      assert lines[4].ConvertedBalanceLine?;
      lines
    else
      [TitleLine, AccountIdLine(accountId), number, balance, inflow, outflow, average]
  }

  /** What the renderer receives, and the name the download is offered under. */
  datatype Statement = Statement(filename: string, title: string, lines: seq<Line>)

  /** `statement-<accountId>.pdf` */
  function StatementFilename(accountId: string): (name: string)
    ensures |name| == |accountId| + 14
    ensures name[..10] == "statement-" && name[|name| - 4..] == ".pdf"
    ensures name[10..|name| - 4] == accountId
  {
    "statement-" + accountId + ".pdf"
  }

  /** `generateAccountStatement(accountId, targetCurrency)` up to rendering. */
  function GenerateAccountStatement(db: Database, accountId: string, targetParam: Option<string>,
                                    reply: Reply): (s: Statement)
    ensures s.title == StatementTitle
    ensures s.filename == StatementFilename(accountId)
    ensures 7 <= |s.lines| <= 8
    ensures accountId in db.accounts ==>
              && s.lines[2] == AccountNumberLine(Some(db.accounts[accountId].accountNumber))
              && s.lines[3] == BalanceLine(Some(db.accounts[accountId].balance), db.accounts[accountId].currency)
    ensures var currency := AccountCurrency(GetAccount(db, accountId));
            var rows := FindByAccountId(db.transactions, accountId);
            && s.lines[|s.lines| - 3] == InflowLine(MaskedTotal(db.transactions, accountId, Income), currency)
            && s.lines[|s.lines| - 2] == OutflowLine(MaskedTotal(db.transactions, accountId, Expense), currency)
            && s.lines[|s.lines| - 1] ==
               AverageLine(if |rows| == 0 then 0.0 else Total(rows, Magnitude) / (|rows| as real), currency)
    ensures s.lines == StatementLines(accountId, GetAccount(db, accountId),
                                      GetAccountAnalytics(db, accountId), TargetCurrency(targetParam), reply)
  {
    var account := GetAccount(db, accountId);
    var analytics := GetAccountAnalytics(db, accountId);
    var lines := StatementLines(accountId, account, analytics, TargetCurrency(targetParam), reply);
    Statement(StatementFilename(accountId), StatementTitle, lines)
  }

  /** How numbers are printed: a stored decimal, and a double. */
  datatype NumberFormat = NumberFormat(decimal: real -> string, double: real -> string)

  /** The caption a line starts with. */
  function Label(line: Line): string {
    match line
    case TitleLine => StatementTitle
    case AccountIdLine(_) => "Account ID: "
    case AccountNumberLine(_) => "Account Number: "
    case BalanceLine(_, _) => "Balance: "
    case ConvertedBalanceLine(target, _) => "Balance in " + target + ": "
    case InflowLine(_, _) => "Total Inflow: "
    case OutflowLine(_, _) => "Total Outflow: "
    case AverageLine(_, _) => "Average Transaction: "
  }

  /** What a line shows between its caption and its currency code. */
  function Value(line: Line, fmt: NumberFormat): string {
    match line
    case TitleLine => ""
    case AccountIdLine(id) => id
    case AccountNumberLine(number) => number.GetOr("N/A")
    case BalanceLine(balance, _) => if balance.Some? then fmt.decimal(balance.value) else "0.00"
    case ConvertedBalanceLine(_, amount) => fmt.double(amount)
    case InflowLine(amount, _) => fmt.double(amount)
    case OutflowLine(amount, _) => fmt.double(amount)
    case AverageLine(amount, _) => fmt.double(amount)
  }

  /** The text of a line, as drawn on the page: its caption first, the
      currency code last on every suffixed line, and the placeholders for a
      missing account number or balance. */
  function Render(line: Line, fmt: NumberFormat): (text: string)
    ensures |Label(line)| <= |text| && text[..|Label(line)|] == Label(line)
    ensures Suffix(line).Some? ==>
              var c := Suffix(line).value;
              |c| < |text| && text[|text| - |c| - 1..] == " " + c
    ensures line.TitleLine? ==> text == StatementTitle
    ensures line.AccountIdLine? ==> text == "Account ID: " + line.accountId
    ensures line.AccountNumberLine? && line.number.Some? ==> text == "Account Number: " + line.number.value
    ensures line.AccountNumberLine? && line.number.None? ==> text == "Account Number: N/A"
    ensures line.BalanceLine? && line.balance.Some? ==>
              text == "Balance: " + fmt.decimal(line.balance.value) + " " + line.currency
    ensures line.BalanceLine? && line.balance.None? ==> text == "Balance: 0.00 " + line.currency
    ensures line.ConvertedBalanceLine? ==> text == "Balance in " + line.target + ": " + fmt.double(line.amount)
    ensures line.InflowLine? ==> text == "Total Inflow: " + fmt.double(line.amount) + " " + line.currency
    ensures line.OutflowLine? ==> text == "Total Outflow: " + fmt.double(line.amount) + " " + line.currency
    ensures line.AverageLine? ==> text == "Average Transaction: " + fmt.double(line.amount) + " " + line.currency
  {
    var tail := if Suffix(line).Some? then " " + Suffix(line).value else "";
    ConcatEnds(Label(line), Value(line, fmt), tail);
    Label(line) + Value(line, fmt) + tail
  }

  /** A concatenation starts with its first part and ends with its last. */
  lemma {:induction false} ConcatEnds(a: string, b: string, c: string)
    ensures (a + b + c)[..|a|] == a
    ensures (a + b + c)[|a| + |b|..] == c
  {
  }

  /** A missing account still yields a full statement: placeholders for the
      number and balance, USD as its currency, and a converted balance of 0
      whenever the target is not exactly "USD". */
  lemma {:induction false} MissingAccountLines(accountId: string, analytics: AccountAnalytics, target: string,
                            reply: Reply, fmt: NumberFormat)
    ensures var lines := StatementLines(accountId, None, analytics, target, reply);
            && Render(lines[2], fmt) == "Account Number: N/A"
            && Render(lines[3], fmt) == "Balance: 0.00 USD"
            && (target != "USD" <==> |lines| == 8)
            && (target != "USD" ==> lines[4] == ConvertedBalanceLine(target, 0.0))
  {
    var lines := StatementLines(accountId, None, analytics, target, reply);
    assert lines[2] == AccountNumberLine(None);
    assert lines[3] == BalanceLine(None, "USD");
    assert Render(lines[3], fmt) == "Balance: " + "0.00" + " " + "USD";
  }

  /** The same holds of the whole endpoint for an id with no stored account. */
  lemma {:induction false} MissingAccountStatement(db: Database, accountId: string, targetParam: Option<string>,
                                reply: Reply, fmt: NumberFormat)
    requires accountId !in db.accounts
    ensures var s := GenerateAccountStatement(db, accountId, targetParam, reply);
            var target := TargetCurrency(targetParam);
            && Render(s.lines[2], fmt) == "Account Number: N/A"
            && Render(s.lines[3], fmt) == "Balance: 0.00 USD"
            && (target != "USD" <==> |s.lines| == 8)
            && (target != "USD" ==> s.lines[4] == ConvertedBalanceLine(target, 0.0))
  {
    assert GetAccount(db, accountId) == None;
    MissingAccountLines(accountId, GetAccountAnalytics(db, accountId), TargetCurrency(targetParam), reply, fmt);
  }

  /** The statement of an existing account whose currency is the target
      shows its balance once and makes no request. */
  lemma {:induction false} NoConversionForSameCurrency(account: Account, analytics: AccountAnalytics, reply: Reply)
    ensures ConversionRequest(Some(account), account.currency).None?
    ensures var lines := StatementLines(account.id, Some(account), analytics, account.currency, reply);
            |lines| == 7 && lines[3] == BalanceLine(Some(account.balance), account.currency)
  {
  }

  /** Currency comparison here is case-sensitive: a USD account asked for
      "usd" requests a conversion and shows a "Balance in usd" line, which
      the currency service answers at rate 1 under the code "USD". */
  lemma {:induction false} CaseMismatchStillConverts(account: Account, analytics: AccountAnalytics, elapsed: nat)
    requires account.currency == "USD" && elapsed <= TimeoutMillis
    ensures var q := ConversionRequest(Some(account), "usd");
            && q == Some(ConversionQuery(account.balance, "USD", "usd"))
            && var reply := ServedReply(q.value, elapsed);
               StatementLines(account.id, Some(account), analytics, "usd", reply)[4]
               == ConvertedBalanceLine("usd", account.balance)
  {
    var reply := ServedReply(ConversionQuery(account.balance, "USD", "usd"), elapsed);
    assert Ascii.EqualsIgnoreCase("USD", "usd");
    assert DemoRate("USD", "usd") == 1.0;
  }

  datatype TransactionDto = TransactionDto(id: string, amount: real, currency: string, description: string)

  /** `toDto`: a missing description becomes the empty text. */
  function ToDto(t: Transaction): (dto: TransactionDto)
    ensures dto.id == t.id && dto.amount == t.amount && dto.currency == t.currency
    ensures dto.description == "" <==> t.description.None? || t.description == Some("")
    ensures t.description.Some? ==> dto.description == t.description.value
  {
    TransactionDto(t.id, t.amount, t.currency, t.description.GetOr(""))
  }
}
