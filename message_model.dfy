/**
 * The read queries of `MessageModel` (bot/src/models/Message.ts) over the
 * messages table, and `mapToMessage`, the adapter from a driver row.
 */
module MessageModel {
  import opened Calendar
  import opened Records
  import opened Seqs
  import opened Ranking
  import Decimal

  /** A row as the driver returns it: `user_id` and `chat_id` are BIGINT, so decimal text. */
  datatype MessageRow = MessageRow(
    id: nat,
    user_id: string,
    chat_id: string,
    message_text: string,
    message_date: Instant,
    created_at: Instant)

  /** The row the driver returns for a stored message. */
  function ToRow(m: Message): MessageRow
  {
    MessageRow(m.id, Decimal.Show(m.userId), Decimal.Show(m.chatId), m.messageText, m.messageDate, m.createdAt)
  }

  /** `mapToMessage`: fields copied, the two ids coerced with `Number`. */
  function MapToMessage(row: MessageRow): Message
    requires Decimal.IsCanonical(row.user_id) && Decimal.IsCanonical(row.chat_id)
  {
    Message(row.id, Decimal.Parse(row.user_id), Decimal.Parse(row.chat_id),
            row.message_text, row.message_date, row.created_at)
  }

  /** The adapter gives back every field of the stored record. */
  lemma MapToMessageRoundTrip(m: Message)
    ensures var row := ToRow(m);
            Decimal.IsCanonical(row.user_id) && Decimal.IsCanonical(row.chat_id) && MapToMessage(row) == m
  {
    Decimal.ParseShow(m.userId);
    Decimal.ParseShow(m.chatId);
  }

  function DateKey(): Message -> int
  {
    (m: Message) => m.messageDate
  }

  function ByUser(userId: int): Message -> bool
  {
    (m: Message) => m.userId == userId
  }

  function ByUserBetween(userId: int, start: Instant, end: Instant): Message -> bool
  {
    (m: Message) => m.userId == userId && start <= m.messageDate <= end
  }

  function InChat(chatId: int): Message -> bool
  {
    (m: Message) => m.chatId == chatId
  }

  /** `getRecentByUser`: the user's messages in any chat, newest first, at most `limit` of them. */
  function RecentByUser(messages: seq<Message>, userId: int, limit: nat := 50): seq<Message>
  {
    Take(SortDesc(Filter(messages, ByUser(userId)), DateKey()), limit)
  }

  /**
   * Only the user's messages, newest first, `min(limit, n)` of them where
   * `n` is how many the user has, and none left out is newer than one kept.
   */
  lemma RecentByUserSpec(messages: seq<Message>, userId: int, limit: nat)
    ensures var r := RecentByUser(messages, userId, limit);
            var n := |Filter(messages, ByUser(userId))|;
            && |r| == (if limit < n then limit else n)
            && (forall i :: 0 <= i < |r| ==> r[i].userId == userId && r[i] in messages)
            && SortedDesc(r, DateKey())
            && (forall m, i :: m in messages && m.userId == userId && m !in r && 0 <= i < |r|
                  ==> r[i].messageDate >= m.messageDate)
  {
    var mine := Filter(messages, ByUser(userId));
    var sorted := SortDesc(mine, DateKey());
    var r := Take(sorted, limit);
    forall i | 0 <= i < |r| ensures r[i].userId == userId && r[i] in messages {
      assert r[i] in multiset(sorted);
      assert r[i] in mine;
    }
    forall m, i | m in messages && m.userId == userId && m !in r && 0 <= i < |r|
      ensures r[i].messageDate >= m.messageDate
    {
      assert m in mine;
      TakeIsTop(mine, DateKey(), limit, m);
    }
  }

  /** `getByUserAndPeriod`: the user's messages with start <= date <= end (both ends included), newest first. */
  function ByUserAndPeriod(messages: seq<Message>, userId: int, start: Instant, end: Instant): seq<Message>
  {
    SortDesc(Filter(messages, ByUserBetween(userId, start, end)), DateKey())
  }

  /** Exactly the matching messages (as a multiset), newest first. */
  lemma ByUserAndPeriodSpec(messages: seq<Message>, userId: int, start: Instant, end: Instant)
    ensures var r := ByUserAndPeriod(messages, userId, start, end);
            && SortedDesc(r, DateKey())
            && (forall m :: m in r <==> m in messages && m.userId == userId && start <= m.messageDate <= end)
            && multiset(r) <= multiset(messages)
  {
    var f := Filter(messages, ByUserBetween(userId, start, end));
    var r := SortDesc(f, DateKey());
    FilterSubMultiset(messages, ByUserBetween(userId, start, end));
    forall m ensures m in r <==> m in f {
      assert m in r <==> m in multiset(r);
      assert m in f <==> m in multiset(f);
    }
  }

  /** `WHERE chat_id = $1 AND message_date >= $2`, the filter of the analytics queries. */
  function Qualifies(chatId: int, start: Instant): Message -> bool
  {
    (m: Message) => m.chatId == chatId && m.messageDate >= start
  }

  function InPeriod(messages: seq<Message>, chatId: int, start: Instant): seq<Message>
  {
    Filter(messages, Qualifies(chatId, start))
  }

  /** `getTotalCount`: how many messages the chat has. */
  function TotalCount(messages: seq<Message>, chatId: int): nat
  {
    |Filter(messages, InChat(chatId))|
  }

  /** Appending a message adds one to its own chat's count and leaves every other chat's count alone. */
  lemma TotalCountAppend(messages: seq<Message>, m: Message, chatId: int)
    ensures TotalCount(messages + [m], chatId) == TotalCount(messages, chatId) + (if m.chatId == chatId then 1 else 0)
  {
    FilterAppend(messages, [m], InChat(chatId));
    assert Filter([m], InChat(chatId)) == (if m.chatId == chatId then [m] else []) + Filter([], InChat(chatId));
  }
}
