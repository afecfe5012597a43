/** The transaction record shared by the dashboard and the application state. */
module Types {
  /** The closed, two-valued `type` field of a record. */
  datatype Kind = Income | Expense

  /** A calendar date in `YYYY-MM-DD` form, kept as the string the backend stores. */
  type Date = string

  /**
   * One stored transaction. The amount is a whole number of minor currency
   * units, so every sum below is exact; its sign is not constrained, as the
   * client never checks it.
   */
  datatype Transaction = Transaction(
    id: string,
    userId: string,
    description: string,
    amount: int,
    kind: Kind,
    date: Date,
    createdAt: string)
}
