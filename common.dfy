/** Small value helpers shared by the ledger, the chat log and the bot handlers. */
module Common {

  /** Telegram user id, the key of every table (a BIGINT there). */
  type UserId = int

  /** A row that may or may not exist, or a value that may be absent (Python's None). */
  datatype Option<+T> = None | Some(value: T)

  function Min(a: int, b: int): int
  {
    if a <= b then a else b
  }

  function Max(a: int, b: int): int
  {
    if a >= b then a else b
  }
}
