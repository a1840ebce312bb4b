/**
 * The read queries of `UserModel` (bot/src/models/User.ts) over the users
 * table, and `mapToUser`, the adapter from a driver row to a `User`.
 */
module UserModel {
  import opened Wrappers
  import opened Calendar
  import opened Records
  import Decimal

  /**
   * A row as the PostgreSQL driver returns it: BIGINT columns arrive as
   * decimal text, SERIAL and TIMESTAMP columns as values.
   */
  datatype UserRow = UserRow(
    id: nat,
    telegram_id: string,
    username: Option<string>,
    first_name: Option<string>,
    last_name: Option<string>,
    created_at: Instant)

  /** The row the driver returns for a stored user. */
  function ToRow(u: User): UserRow
  {
    UserRow(u.id, Decimal.Show(u.telegramId), u.username, u.firstName, u.lastName, u.createdAt)
  }

  /** `mapToUser`: fields copied, `telegram_id` coerced with `Number`. */
  function MapToUser(row: UserRow): User
    requires Decimal.IsCanonical(row.telegram_id)
  {
    User(row.id, Decimal.Parse(row.telegram_id), row.username, row.first_name, row.last_name, row.created_at)
  }

  /** The adapter gives back every field of the stored record. */
  lemma MapToUserRoundTrip(u: User)
    ensures Decimal.IsCanonical(ToRow(u).telegram_id) && MapToUser(ToRow(u)) == u
  {
    Decimal.ParseShow(u.telegramId);
  }

  /** `findByTelegramId`: the first row with that `telegram_id`, or none. */
  function FindByTelegramId(users: seq<User>, telegramId: int): (r: Option<User>)
    ensures r.None? <==> forall u :: u in users ==> u.telegramId != telegramId
    ensures r.Some? ==> r.value in users && r.value.telegramId == telegramId
  {
    if users == [] then None
    else if users[0].telegramId == telegramId then Some(users[0])
    else FindByTelegramId(users[1..], telegramId)
  }

  /** `findByUsername`: a row with that username (a NULL username never matches), or none. */
  function FindByUsername(users: seq<User>, username: string): (r: Option<User>)
    ensures r.None? <==> forall u :: u in users ==> u.username != Some(username)
    ensures r.Some? ==> r.value in users && r.value.username == Some(username)
  {
    if users == [] then None
    else if users[0].username == Some(username) then Some(users[0])
    else FindByUsername(users[1..], username)
  }

  predicate PostedIn(messages: seq<Message>, telegramId: int, chatId: int)
  {
    exists m :: m in messages && m.userId == telegramId && m.chatId == chatId
  }

  /** `findByChatId`: `SELECT DISTINCT u.*` joined with the chat's messages. */
  function FindByChatId(users: seq<User>, messages: seq<Message>, chatId: int): (r: seq<User>)
    ensures forall u :: u in r <==> u in users && PostedIn(messages, u.telegramId, chatId)
    ensures forall i, j :: 0 <= i < j < |r| ==> r[i] != r[j]
    decreases |users|
  {
    if users == [] then []
    else
      var rest := FindByChatId(users[1..], messages, chatId);
      if PostedIn(messages, users[0].telegramId, chatId) && users[0] !in rest then
        [users[0]] + rest
      else
        rest
  }
}
