/** Shared value types: identifiers, amounts, the transaction record and the
    success/failure wrappers used by every other module. */
module Types {

  /** A client identifier (an unsigned 16-bit integer in the source). */
  type ClientId = c: int | 0 <= c < 0x1_0000

  /** A transaction identifier (an unsigned 32-bit integer in the source). */
  type TxId = t: int | 0 <= t < 0x1_0000_0000

  /** A decimal amount. Decimal arithmetic in the source is exact, so it is a real here. */
  type Amount = real

  datatype Option<+T> = None | Some(value: T)

  datatype Result<+T, +E> = Ok(value: T) | Err(error: E)

  /** The unit result `Result<(), E>` of the source. */
  datatype Outcome<+E> = Pass | Fail(error: E)

  /** The `type` column of a record, already mapped onto the known names;
      any other text is kept as `Unknown`. */
  datatype Kind =
    | Deposit
    | Withdrawal
    | Dispute
    | Resolve
    | Chargeback
    | Unknown(name: string)

  /** One input record: kind, client, tx and amount. */
  datatype Transaction = Transaction(kind: Kind, client: ClientId, tx: TxId, amount: Amount)
}
