/**
 * The records of bot/src/types/index.ts and the two tables of the store
 * (bot/src/database/init.ts). Optional text columns are `Option`s: `None`
 * stands both for SQL NULL and for an absent JavaScript property.
 */
module Records {
  import opened Wrappers
  import opened Calendar

  /** A row of `users`; `telegramId` is UNIQUE, `id` is SERIAL. */
  datatype User = User(
    id: nat,
    telegramId: int,
    username: Option<string>,
    firstName: Option<string>,
    lastName: Option<string>,
    createdAt: Instant)

  /** A row of `messages`; `userId` REFERENCES users(telegram_id). */
  datatype Message = Message(
    id: nat,
    userId: int,
    chatId: int,
    messageText: string,
    messageDate: Instant,
    createdAt: Instant)

  datatype TopUserStats = TopUserStats(
    telegramId: int,
    username: Option<string>,
    firstName: Option<string>,
    lastName: Option<string>,
    messageCount: nat)

  /**
   * Per-user figures. The source's `avgMessageLength` is the SQL AVG of the
   * text lengths; the model keeps the exact sum, from which the mean is
   * `totalLength / messageCount`.
   */
  datatype UserStats = UserStats(
    messageCount: nat,
    totalLength: nat,
    firstMessage: Instant,
    lastMessage: Instant)

  function AverageLength(s: UserStats): real
    requires s.messageCount > 0
  {
    s.totalLength as real / s.messageCount as real
  }

  datatype ChatStats = ChatStats(
    totalMessages: nat,
    uniqueUsers: nat,
    periodStart: DateTime,
    periodEnd: DateTime)

  datatype WordCount = WordCount(word: string, count: nat)

  /** Errors the store reports: a failed connection or query, or a violated constraint (by name). */
  datatype DbError = QueryFailed | ConstraintViolation(constraint: string)

  datatype Tables = Tables(users: seq<User>, messages: seq<Message>)

  /** What a query sees: the tables, or the error the pool raises. */
  datatype Connection = Connected(tables: Tables) | Down(error: DbError)
}
