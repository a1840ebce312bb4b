/**
 * The three aggregate queries of `StatsService`
 * (bot/src/services/stats.service.ts) as functions over the tables. Every
 * query keeps the messages of one chat dated at or after the start of the
 * period; the result is the error of the connection when it is down.
 */
module StatsService {
  import opened Wrappers
  import opened Calendar
  import opened Period
  import opened Records
  import opened Seqs
  import opened Ranking
  import opened MessageModel

  /** `LIMIT 10` of the top-users query. */
  const TopLimit: nat := 10

  /** `COUNT(m.id)` of one user's group. */
  function CountBy(q: seq<Message>, telegramId: int): nat
  {
    |Filter(q, ByUser(telegramId))|
  }

  /** The output row for one user: the joined user columns and the size of its group. */
  function Row(u: User, q: seq<Message>): TopUserStats
  {
    TopUserStats(u.telegramId, u.username, u.firstName, u.lastName, CountBy(q, u.telegramId))
  }

  /** One row per user, in the order of the users table. */
  function Rows(users: seq<User>, q: seq<Message>): (r: seq<TopUserStats>)
    ensures |r| == |users|
    ensures forall i :: 0 <= i < |users| ==> r[i] == Row(users[i], q)
  {
    seq(|users|, i requires 0 <= i < |users| => Row(users[i], q))
  }

  function HasMessages(): TopUserStats -> bool
  {
    (g: TopUserStats) => g.messageCount > 0
  }

  /**
   * The inner join grouped by user: one row per user that has at least one
   * qualifying message, in the order of the users table.
   */
  function Groups(users: seq<User>, q: seq<Message>): seq<TopUserStats>
  {
    Filter(Rows(users, q), HasMessages())
  }

  /** A group is the row of a user of the table, with at least one qualifying message. */
  lemma GroupsSound(users: seq<User>, q: seq<Message>, g: TopUserStats)
    requires g in Groups(users, q)
    ensures g.messageCount > 0 && exists u :: u in users && g == Row(u, q)
  {
    var k :| 0 <= k < |Rows(users, q)| && Rows(users, q)[k] == g;
    assert users[k] in users;
  }

  /** Every user of the table with a qualifying message has a group. */
  lemma GroupsComplete(users: seq<User>, q: seq<Message>, u: User)
    requires u in users && CountBy(q, u.telegramId) > 0
    ensures Row(u, q) in Groups(users, q)
  {
    var k :| 0 <= k < |users| && users[k] == u;
    assert Rows(users, q)[k] == Row(u, q);
  }

  function CountKey(): TopUserStats -> int
  {
    (g: TopUserStats) => g.messageCount
  }

  /**
   * `ORDER BY message_count DESC LIMIT 10`. SQL leaves the order of ties
   * open; the model resolves it in the order of the users table.
   */
  function TopUsers(t: Tables, chatId: int, start: Instant): seq<TopUserStats>
  {
    Take(SortDesc(Groups(t.users, InPeriod(t.messages, chatId, start)), CountKey()), TopLimit)
  }

  /** `getTopUsers`. */
  function GetTopUsers(conn: Connection, chatId: int, p: Period, now: DateTime): (r: Result<seq<TopUserStats>, DbError>)
    requires Valid(now)
    ensures conn.Down? <==> r.Failure?
    ensures conn.Down? ==> r.error == conn.error
  {
    match conn
    case Down(e) => Failure(e)
    case Connected(t) => Success(TopUsers(t, chatId, StartMillis(p, now)))
  }

  /** At most ten rows, most messages first, each a user's count of qualifying messages. */
  lemma TopUsersSpec(t: Tables, chatId: int, start: Instant)
    ensures var q := InPeriod(t.messages, chatId, start);
            var r := TopUsers(t, chatId, start);
            && |r| <= TopLimit
            && SortedDesc(r, CountKey())
            && (forall i :: 0 <= i < |r| ==>
                  r[i].messageCount > 0 && exists u :: u in t.users && r[i] == Row(u, q))
  {
    var q := InPeriod(t.messages, chatId, start);
    var g := Groups(t.users, q);
    var sorted := SortDesc(g, CountKey());
    var r := Take(sorted, TopLimit);
    forall i | 0 <= i < |r|
      ensures r[i].messageCount > 0 && exists u :: u in t.users && r[i] == Row(u, q)
    {
      assert r[i] == sorted[i];
      assert sorted[i] in multiset(sorted);
      GroupsSound(t.users, q, r[i]);
    }
  }

  /** No user left off the list has more qualifying messages than a user on it. */
  lemma TopUsersAreTop(t: Tables, chatId: int, start: Instant, u: User)
    requires u in t.users
    requires Row(u, InPeriod(t.messages, chatId, start)) !in TopUsers(t, chatId, start)
    ensures var r := TopUsers(t, chatId, start);
            forall i :: 0 <= i < |r| ==> r[i].messageCount >= CountBy(InPeriod(t.messages, chatId, start), u.telegramId)
  {
    var q := InPeriod(t.messages, chatId, start);
    var g := Groups(t.users, q);
    var r := Take(SortDesc(g, CountKey()), TopLimit);
    assert r == TopUsers(t, chatId, start);
    var e := Row(u, q);
    assert CountKey()(e) == CountBy(q, u.telegramId);
    if CountBy(q, u.telegramId) > 0 {
      GroupsComplete(t.users, q, u);
      TakeIsTop(g, CountKey(), TopLimit, e);
      forall i | 0 <= i < |r|
        ensures r[i].messageCount >= CountBy(q, u.telegramId)
      {
        assert CountKey()(r[i]) >= CountKey()(e);
      }
    } else {
      forall i | 0 <= i < |r|
        ensures r[i].messageCount >= CountBy(q, u.telegramId)
      {
      }
    }
  }

  /** When fewer than ten rows come back, every user with a qualifying message is on the list. */
  lemma TopUsersComplete(t: Tables, chatId: int, start: Instant, u: User)
    requires |TopUsers(t, chatId, start)| < TopLimit
    requires u in t.users && CountBy(InPeriod(t.messages, chatId, start), u.telegramId) > 0
    ensures Row(u, InPeriod(t.messages, chatId, start)) in TopUsers(t, chatId, start)
  {
    var q := InPeriod(t.messages, chatId, start);
    var g := Groups(t.users, q);
    var sorted := SortDesc(g, CountKey());
    assert TopUsers(t, chatId, start) == sorted;
    GroupsComplete(t.users, q, u);
    assert Row(u, q) in multiset(g);
    assert Row(u, q) in multiset(sorted);
  }

  /** Characters of all texts: `SUM(LENGTH(message_text))`, of which AVG is the mean. */
  function TotalLength(q: seq<Message>): nat
  {
    if q == [] then 0 else |q[0].messageText| + TotalLength(q[1..])
  }

  /** `MIN(message_date)`. */
  function MinDate(q: seq<Message>): (r: Instant)
    requires q != []
    ensures exists m :: m in q && m.messageDate == r
    ensures forall m :: m in q ==> r <= m.messageDate
  {
    if |q| == 1 then q[0].messageDate
    else
      var rest := MinDate(q[1..]);
      assert forall m :: m in q ==> m == q[0] || m in q[1..];
      if q[0].messageDate <= rest then q[0].messageDate else rest
  }

  /** `MAX(message_date)`. */
  function MaxDate(q: seq<Message>): (r: Instant)
    requires q != []
    ensures exists m :: m in q && m.messageDate == r
    ensures forall m :: m in q ==> m.messageDate <= r
  {
    if |q| == 1 then q[0].messageDate
    else
      var rest := MaxDate(q[1..]);
      assert forall m :: m in q ==> m == q[0] || m in q[1..];
      if q[0].messageDate >= rest then q[0].messageDate else rest
  }

  /** The user's qualifying messages: `WHERE user_id = $1 AND chat_id = $2 AND message_date >= $3`. */
  function UserMessages(messages: seq<Message>, userId: int, chatId: int, start: Instant): (r: seq<Message>)
    ensures forall m :: m in r <==>
              m in messages && m.userId == userId && m.chatId == chatId && m.messageDate >= start
    ensures |r| == CountBy(InPeriod(messages, chatId, start), userId)
  {
    Filter(InPeriod(messages, chatId, start), ByUser(userId))
  }

  /** The aggregate row, or none when its count is 0. */
  function UserStatsOf(messages: seq<Message>, userId: int, chatId: int, start: Instant): Option<UserStats>
  {
    var q := UserMessages(messages, userId, chatId, start);
    if |q| == 0 then None
    else Some(UserStats(|q|, TotalLength(q), MinDate(q), MaxDate(q)))
  }

  /** `getUserStats`. */
  function GetUserStats(conn: Connection, userId: int, chatId: int, p: Period, now: DateTime)
    : (r: Result<Option<UserStats>, DbError>)
    requires Valid(now)
    ensures conn.Down? <==> r.Failure?
    ensures conn.Down? ==> r.error == conn.error
  {
    match conn
    case Down(e) => Failure(e)
    case Connected(t) => Success(UserStatsOf(t.messages, userId, chatId, StartMillis(p, now)))
  }

  /** None exactly when the user wrote nothing in the chat on or after the start. */
  lemma UserStatsNone(messages: seq<Message>, userId: int, chatId: int, start: Instant)
    ensures UserStatsOf(messages, userId, chatId, start).None? <==>
            forall m :: m in messages ==> !(m.userId == userId && m.chatId == chatId && m.messageDate >= start)
  {
    var q := UserMessages(messages, userId, chatId, start);
    if |q| > 0 {
      assert q[0] in q;
    }
  }

  /**
   * Otherwise the count is that number of messages, at least one, and the
   * first and last dates bound every one of them and are among them.
   */
  lemma UserStatsSome(messages: seq<Message>, userId: int, chatId: int, start: Instant)
    requires UserStatsOf(messages, userId, chatId, start).Some?
    ensures var s := UserStatsOf(messages, userId, chatId, start).value;
            var q := UserMessages(messages, userId, chatId, start);
            && s.messageCount >= 1
            && s.messageCount == CountBy(InPeriod(messages, chatId, start), userId)
            && s.firstMessage <= s.lastMessage
            && start <= s.firstMessage
            && (exists m :: m in q && m.messageDate == s.firstMessage)
            && (exists m :: m in q && m.messageDate == s.lastMessage)
            && (forall m :: m in messages && m.userId == userId && m.chatId == chatId && m.messageDate >= start
                  ==> s.firstMessage <= m.messageDate <= s.lastMessage)
  {
    var q := UserMessages(messages, userId, chatId, start);
    assert q[0] in q;
    forall m | m in messages && m.userId == userId && m.chatId == chatId && m.messageDate >= start
      ensures m in q
    {
    }
  }

  /** A user on the top list has stats, and their count agrees with the list. */
  lemma TopUsersAgreeWithUserStats(t: Tables, chatId: int, start: Instant, i: nat)
    requires i < |TopUsers(t, chatId, start)|
    ensures var g := TopUsers(t, chatId, start)[i];
            var s := UserStatsOf(t.messages, g.telegramId, chatId, start);
            s.Some? && s.value.messageCount == g.messageCount
  {
    var q := InPeriod(t.messages, chatId, start);
    var g := TopUsers(t, chatId, start)[i];
    TopUsersSpec(t, chatId, start);
    var u :| u in t.users && g == Row(u, q);
    UserStatsNone(t.messages, u.telegramId, chatId, start);
  }

  /** The distinct authors: `COUNT(DISTINCT user_id)` is its size. */
  function UserIds(q: seq<Message>): (r: set<int>)
    ensures forall u :: u in r <==> exists m :: m in q && m.userId == u
    ensures |r| <= |q|
  {
    if q == [] then {}
    else
      var rest := UserIds(q[1..]);
      assert forall m :: m in q ==> m == q[0] || m in q[1..];
      assert forall m :: m in q[1..] ==> m in q;
      {q[0].userId} + rest
  }

  /** The chat's figures; the period's end is the clock reading `now`. */
  function ChatStatsOf(messages: seq<Message>, chatId: int, p: Period, now: DateTime): ChatStats
    requires Valid(now)
  {
    var q := InPeriod(messages, chatId, StartMillis(p, now));
    ChatStats(|q|, |UserIds(q)|, PeriodStart(p, now), now)
  }

  /** `getChatStats`. */
  function GetChatStats(conn: Connection, chatId: int, p: Period, now: DateTime): (r: Result<ChatStats, DbError>)
    requires Valid(now)
    ensures conn.Down? <==> r.Failure?
    ensures conn.Down? ==> r.error == conn.error
  {
    match conn
    case Down(e) => Failure(e)
    case Connected(t) => Success(ChatStatsOf(t.messages, chatId, p, now))
  }

  /**
   * A record for every chat: the number of qualifying messages and of their
   * distinct authors, never more authors than messages, both zero exactly
   * when nothing qualifies, and the period from its resolved start to now.
   */
  lemma ChatStatsSpec(messages: seq<Message>, chatId: int, p: Period, now: DateTime)
    requires Valid(now)
    ensures var s := ChatStatsOf(messages, chatId, p, now);
            var start := StartMillis(p, now);
            && s.totalMessages == |InPeriod(messages, chatId, start)|
            && s.uniqueUsers <= s.totalMessages
            && (s.totalMessages == 0 <==> forall m :: m in messages ==> !(m.chatId == chatId && m.messageDate >= start))
            && (s.uniqueUsers == 0 <==> s.totalMessages == 0)
            && s.periodStart == PeriodStart(p, now) && s.periodEnd == now
  {
    var start := StartMillis(p, now);
    var q := InPeriod(messages, chatId, start);
    if |q| > 0 {
      assert q[0].userId in UserIds(q);
    }
  }
}
