/** The two persisted records of the report service, read-only to the model.
    Amounts are exact decimals (reals); a timestamp is an instant on an
    integer clock, absent when the column is NULL. */
module Entities {
  import opened Wrappers

  datatype Account = Account(
    id: string,
    accountNumber: string,
    balance: real,
    currency: string,
    createdAt: Option<int>)

  /** `transactionType` is a free string; only "INCOME" and "EXPENSE"
      are given a meaning by the aggregates. */
  datatype Transaction = Transaction(
    id: string,
    accountId: string,
    amount: real,
    currency: string,
    description: Option<string>,
    transactionType: string,
    createdAt: Option<int>)

  const Income := "INCOME"
  const Expense := "EXPENSE"
}
