/**
 * The helpers of bot/src/handlers/command.handler.ts behind the bot's
 * commands: the cache-aside assembly of the chat-statistics and word-cloud
 * replies, the personal-statistics reply, the message-count gate of
 * `/analyze`, the reply formatters and the Russian plural of "message".
 */
module CommandHandler {
  import opened Wrappers
  import opened Decimal
  import opened Calendar
  import opened Period
  import opened Records
  import opened Seqs
  import opened Ranking
  import opened MessageModel
  import opened StatsService
  import opened WordCloudService
  import opened CacheService

  /** The period as it appears in callback data and cache keys. */
  function PeriodTag(p: Period): string
  {
    match p
    case Today => "today"
    case Week => "week"
    case Month => "month"
    case All => "all"
  }

  /** `PERIOD_NAMES`. */
  function PeriodName(p: Period): string
  {
    match p
    case Today => "за сегодня"
    case Week => "за неделю"
    case Month => "за месяц"
    case All => "за всё время"
  }

  /** The text of a period tells the period. */
  lemma PeriodTagInjective(p: Period, q: Period)
    requires PeriodTag(p) == PeriodTag(q)
    ensures p == q
  {
    assert |PeriodTag(p)| == |PeriodTag(q)|;
    if |PeriodTag(p)| == 5 {
      assert PeriodTag(p)[0] == PeriodTag(q)[0];
    }
  }

  /** `${chatId}:${period}`, the part both cache keys share. */
  function KeyTail(chatId: int, p: Period): string
  {
    Show(chatId) + ":" + PeriodTag(p)
  }

  /** `stats:${chatId}:${period}`. */
  function StatsKey(chatId: int, p: Period): string
  {
    "stats:" + KeyTail(chatId, p)
  }

  /** `wordcloud:${chatId}:${period}`. */
  function WordCloudKey(chatId: int, p: Period): string
  {
    "wordcloud:" + KeyTail(chatId, p)
  }

  lemma NoColon(n: int)
    ensures ':' !in Show(n)
  {
    var s := Show(n);
    forall i | 0 <= i < |s| ensures s[i] != ':' {
    }
  }

  /** Where the first colon of `s` is, or `|s|` when there is none. */
  function ColonIndex(s: string): (r: nat)
    ensures r <= |s|
  {
    if s == [] || s[0] == ':' then 0 else 1 + ColonIndex(s[1..])
  }

  /** Text without a colon, then a colon: the first colon sits right after the text. */
  lemma {:induction false} ColonIndexAfter(a: string, b: string)
    requires ':' !in a
    ensures ColonIndex(a + ":" + b) == |a|
  {
    if a != [] {
      ColonIndexAfter(a[1..], b);
      assert (a + ":" + b)[1..] == a[1..] + ":" + b;
    }
  }

  /** Text without a colon, a colon and a rest: the first colon tells where the parts meet. */
  lemma SplitAtColon(a: string, b: string, c: string, d: string)
    requires ':' !in a && ':' !in c
    requires a + ":" + b == c + ":" + d
    ensures a == c && b == d
  {
    var s := a + ":" + b;
    ColonIndexAfter(a, b);
    ColonIndexAfter(c, d);
    assert a == s[..|a|];
    assert c == s[..|c|];
    assert b == s[|a| + 1..];
    assert d == (c + ":" + d)[|c| + 1..];
  }

  /** A key after a fixed prefix splits back into the chat and the period. */
  lemma KeyTailInjective(c1: int, p1: Period, c2: int, p2: Period)
    requires KeyTail(c1, p1) == KeyTail(c2, p2)
    ensures c1 == c2 && p1 == p2
  {
    NoColon(c1);
    NoColon(c2);
    SplitAtColon(Show(c1), PeriodTag(p1), Show(c2), PeriodTag(p2));
    ShowInjective(c1, c2);
    PeriodTagInjective(p1, p2);
  }

  /** Distinct chats or periods have distinct statistics keys. */
  lemma StatsKeyInjective(c1: int, p1: Period, c2: int, p2: Period)
    requires StatsKey(c1, p1) == StatsKey(c2, p2)
    ensures c1 == c2 && p1 == p2
  {
    assert StatsKey(c1, p1)[6..] == KeyTail(c1, p1);
    assert StatsKey(c2, p2)[6..] == KeyTail(c2, p2);
    KeyTailInjective(c1, p1, c2, p2);
  }

  /** Distinct chats or periods have distinct word-cloud keys. */
  lemma WordCloudKeyInjective(c1: int, p1: Period, c2: int, p2: Period)
    requires WordCloudKey(c1, p1) == WordCloudKey(c2, p2)
    ensures c1 == c2 && p1 == p2
  {
    assert WordCloudKey(c1, p1)[10..] == KeyTail(c1, p1);
    assert WordCloudKey(c2, p2)[10..] == KeyTail(c2, p2);
    KeyTailInjective(c1, p1, c2, p2);
  }

  /** The two namespaces never share a key. */
  lemma KeysDisjoint(c1: int, p1: Period, c2: int, p2: Period)
    ensures StatsKey(c1, p1) != WordCloudKey(c2, p2)
  {
    assert StatsKey(c1, p1)[1] == 't' && WordCloudKey(c2, p2)[1] == 'o';
  }

  /** `cases` and `titles` of `getMessagesNoun`. */
  const Cases: seq<nat> := [2, 0, 1, 1, 1, 2]
  const Titles: seq<string> := ["сообщение", "сообщения", "сообщений"]

  /** `getMessagesNoun`, table lookup as written; counts are never negative. */
  function GetMessagesNoun(count: nat): (r: string)
    ensures r in Titles
  {
    Titles[if 4 < count % 100 < 20 then 2 else Cases[if count % 10 < 5 then count % 10 else 5]]
  }

  /**
   * The Russian plural rule the table encodes: "сообщений" from 5 to 19
   * modulo 100; otherwise by the last digit "сообщение" for 1,
   * "сообщения" for 2 to 4 and "сообщений" for the rest.
   */
  lemma NounRule(n: nat)
    ensures GetMessagesNoun(n) ==
      if 5 <= n % 100 <= 19 then "сообщений"
      else if n % 10 == 1 then "сообщение"
      else if 2 <= n % 10 <= 4 then "сообщения"
      else "сообщений"
  {
    if !(5 <= n % 100 <= 19) {
      var d := n % 10;
      assert d == 0 || d == 1 || d == 2 || d == 3 || d == 4 || d >= 5;
    }
  }

  const Medals: seq<string> := ["\U{1F947}", "\U{1F948}", "\U{1F949}"]

  /** The label of rank `i` (from 0): a medal for the first three, then the number and a keycap. */
  function Icon(i: nat): string
  {
    if i < 3 then Medals[i] else Show(i + 1) + "️⃣"
  }

  /** A medal is one character, a numbered label at least three. */
  lemma IconLength(i: nat)
    ensures i < 3 <==> |Icon(i)| == 1
  {
  }

  /** Distinct ranks carry distinct labels. */
  lemma IconInjective(i: nat, j: nat)
    requires Icon(i) == Icon(j)
    ensures i == j
  {
    IconLength(i);
    IconLength(j);
    if i >= 3 {
      assert Icon(i)[..|Icon(i)| - 2] == Show(i + 1);
      assert Icon(j)[..|Icon(j)| - 2] == Show(j + 1);
      ShowInjective(i + 1, j + 1);
    } else {
      assert Medals[i][0] == Medals[j][0];
    }
  }

  /** `@username` when there is one, else the first name, else `Unknown`: never empty. */
  function DisplayName(u: TopUserStats): (r: string)
    ensures |r| > 0
    ensures u.username.Some? && u.username.value != "" ==> r == "@" + u.username.value
  {
    if u.username.Some? && u.username.value != "" then "@" + u.username.value
    else if u.firstName.Some? && u.firstName.value != "" then u.firstName.value
    else "Unknown"
  }

  function StatsHeader(p: Period): string
  {
    "\U{1F4CA} <b>Статистика чата " + PeriodName(p) + "</b>\n\n"
  }

  const NoStatsData: string := "Нет данных для отображения."
  const TopTitle: string := "\U{1F3C6} <b>Топ-10 активных:</b>\n"

  /** One entry of the top list after its label. */
  function UserEntry(u: TopUserStats): string
  {
    " " + DisplayName(u) + " - <b>" + Show(u.messageCount) + "</b> " + GetMessagesNoun(u.messageCount) + "\n"
  }

  /** The line of the entry at index `i` of the top list. */
  function UserLine(u: TopUserStats, i: nat): string
  {
    Icon(i) + UserEntry(u)
  }

  /** The lines of the top list, the entry at index `i` labelled by `Icon(i)`. */
  function UserLines(us: seq<TopUserStats>): string
  {
    if us == [] then "" else UserLines(us[..|us| - 1]) + UserLine(us[|us| - 1], |us| - 1)
  }

  function StatsFooter(cs: ChatStats): string
  {
    "\n\U{1F4C8} <b>Общее:</b>\n• Всего сообщений: <b>" + Show(cs.totalMessages)
    + "</b>\n• Участников: <b>" + Show(cs.uniqueUsers) + "</b>"
  }

  /** The reply `formatChatStats` builds. */
  function ChatStatsText(topUsers: seq<TopUserStats>, cs: ChatStats, p: Period): string
  {
    if topUsers == [] then StatsHeader(p) + NoStatsData
    else StatsHeader(p) + (TopTitle + (UserLines(topUsers) + StatsFooter(cs)))
  }

  lemma AppendAssoc(a: string, b: string, c: string)
    ensures (a + b) + c == a + (b + c)
  {
  }

  /** Extending the list by one entry appends that entry's line. */
  lemma UserLinesSnoc(us: seq<TopUserStats>, i: nat)
    requires i < |us|
    ensures UserLines(us[..i + 1]) == UserLines(us[..i]) + UserLine(us[i], i)
  {
    assert us[..i + 1][..i] == us[..i];
  }

  /** `formatChatStats`: the header, then a line per entry appended in order, then the totals. */
  method FormatChatStats(topUsers: seq<TopUserStats>, cs: ChatStats, p: Period) returns (msg: string)
    ensures msg == ChatStatsText(topUsers, cs, p)
  {
    if |topUsers| == 0 {
      return StatsHeader(p) + NoStatsData;
    }
    var header := StatsHeader(p);
    msg := header + TopTitle;
    assert topUsers[..0] == [];
    assert msg + "" == msg;
    for i := 0 to |topUsers|
      invariant msg == (header + TopTitle) + UserLines(topUsers[..i])
    {
      UserLinesSnoc(topUsers, i);
      AppendAssoc(header + TopTitle, UserLines(topUsers[..i]), UserLine(topUsers[i], i));
      msg := msg + UserLine(topUsers[i], i);
    }
    assert topUsers[..|topUsers|] == topUsers;
    AppendAssoc(header + TopTitle, UserLines(topUsers), StatsFooter(cs));
    AppendAssoc(header, TopTitle, UserLines(topUsers) + StatsFooter(cs));
    msg := msg + StatsFooter(cs);
  }

  /** The "no data" reply comes exactly when the top list is empty. */
  lemma ChatStatsTextEmpty(topUsers: seq<TopUserStats>, cs: ChatStats, p: Period)
    ensures ChatStatsText(topUsers, cs, p) == StatsHeader(p) + NoStatsData <==> topUsers == []
  {
    var h := StatsHeader(p);
    if topUsers != [] {
      var rest := TopTitle + (UserLines(topUsers) + StatsFooter(cs));
      assert rest[0] == TopTitle[0];
      assert (h + rest)[|h|] == rest[0];
      assert (h + NoStatsData)[|h|] == NoStatsData[0];
    }
  }

  function WordCloudHeader(p: Period): string
  {
    "☁️ <b>Облако слов " + PeriodName(p) + "</b>\n\n"
  }

  const NoWords: string := "Недостаточно слов для анализа."

  /** One entry of the cloud after its label. */
  function WordEntry(w: WordCount): string
  {
    " " + w.word + " — <b>" + Show(w.count) + "</b> раз\n"
  }

  /** The line of the word at index `i` of the cloud. */
  function WordLine(w: WordCount, i: nat): string
  {
    Icon(i) + WordEntry(w)
  }

  /** The lines of the cloud, the entry at index `i` labelled by `Icon(i)`. */
  function WordLines(ws: seq<WordCount>): string
  {
    if ws == [] then "" else WordLines(ws[..|ws| - 1]) + WordLine(ws[|ws| - 1], |ws| - 1)
  }

  function WordCloudFooter(totalMessages: nat): string
  {
    "\n\U{1F4CA} <i>Проанализировано " + Show(totalMessages) + " сообщений</i>"
  }

  /** The reply `formatWordCloud` builds. */
  function WordCloudText(words: seq<WordCount>, totalMessages: nat, p: Period): string
  {
    if words == [] then WordCloudHeader(p) + NoWords
    else WordCloudHeader(p) + (WordLines(words) + WordCloudFooter(totalMessages))
  }

  /** Extending the cloud by one word appends that word's line. */
  lemma WordLinesSnoc(ws: seq<WordCount>, i: nat)
    requires i < |ws|
    ensures WordLines(ws[..i + 1]) == WordLines(ws[..i]) + WordLine(ws[i], i)
  {
    assert ws[..i + 1][..i] == ws[..i];
  }

  /** `formatWordCloud`: the header, then a line per word appended in order, then the message count. */
  method FormatWordCloud(words: seq<WordCount>, totalMessages: nat, p: Period) returns (msg: string)
    ensures msg == WordCloudText(words, totalMessages, p)
  {
    var header := WordCloudHeader(p);
    if |words| == 0 {
      return header + NoWords;
    }
    msg := header;
    assert words[..0] == [];
    assert msg + "" == msg;
    for i := 0 to |words|
      invariant msg == header + WordLines(words[..i])
    {
      WordLinesSnoc(words, i);
      AppendAssoc(header, WordLines(words[..i]), WordLine(words[i], i));
      msg := msg + WordLine(words[i], i);
    }
    assert words[..|words|] == words;
    AppendAssoc(header, WordLines(words), WordCloudFooter(totalMessages));
    msg := msg + WordCloudFooter(totalMessages);
  }

  /** A non-empty cloud's lines open with the gold medal. */
  lemma {:induction false} WordLinesStart(ws: seq<WordCount>)
    requires ws != []
    ensures |WordLines(ws)| > 0 && WordLines(ws)[0] == Medals[0][0]
    decreases |ws|
  {
    var last := WordLine(ws[|ws| - 1], |ws| - 1);
    if |ws| > 1 {
      WordLinesStart(ws[..|ws| - 1]);
      assert (WordLines(ws[..|ws| - 1]) + last)[0] == WordLines(ws[..|ws| - 1])[0];
    } else {
      assert ws[..0] == [];
      assert WordLines(ws) == "" + last;
    }
  }

  /** The "too few words" reply comes exactly when the cloud is empty. */
  lemma WordCloudTextEmpty(words: seq<WordCount>, totalMessages: nat, p: Period)
    ensures WordCloudText(words, totalMessages, p) == WordCloudHeader(p) + NoWords <==> words == []
  {
    var h := WordCloudHeader(p);
    if words != [] {
      WordLinesStart(words);
      var rest := WordLines(words) + WordCloudFooter(totalMessages);
      assert rest[0] == WordLines(words)[0];
      assert (h + rest)[|h|] == rest[0];
      assert (h + NoWords)[|h|] == NoWords[0];
    }
  }

  function UserStatsTitle(userName: string): string
  {
    "\U{1F4CA} <b>Статистика для " + userName + "</b>"
  }

  /** The reply to a user who has not written in the chat. */
  function NotYetText(userName: string): string
  {
    UserStatsTitle(userName) + "\n\nВы еще не писали сообщения в этом чате."
  }

  /**
   * The reply with the user's figures; `showAverage` stands for
   * `toFixed(1)` and `showDate` for `toLocaleDateString('ru-RU')`.
   */
  function StatsText(userName: string, s: UserStats, showAverage: real -> string, showDate: Instant -> string): string
    requires s.messageCount > 0
  {
    UserStatsTitle(userName) + Figures(s, showAverage, showDate)
  }

  /** The figures after the title. */
  function Figures(s: UserStats, showAverage: real -> string, showDate: Instant -> string): string
    requires s.messageCount > 0
  {
    " (за всё время)\n\n- \U{1F4DD} Всего сообщений: <b>" + (Show(s.messageCount)
    + "</b>\n- \U{1F4CF} Средняя длина: <b>" + showAverage(AverageLength(s))
    + "</b> симв.\n- \U{1F4C5} Первое сообщение: <b>" + showDate(s.firstMessage)
    + "</b>\n- \U{1F4C5} Последнее: <b>" + showDate(s.lastMessage) + "</b>")
  }

  /** `generateUserStatsMessage`: the user's figures over all time, or the "not written yet" reply. */
  function GenerateUserStatsMessage(conn: Connection, userId: int, chatId: int, userName: string, now: DateTime,
                                    showAverage: real -> string, showDate: Instant -> string)
    : (r: Result<string, DbError>)
    requires Valid(now)
    ensures conn.Down? ==> r == Failure(conn.error)
  {
    match GetUserStats(conn, userId, chatId, All, now)
    case Failure(e) => Failure(e)
    case Success(s) =>
      if s.None? || s.value.messageCount == 0 then Success(NotYetText(userName))
      else Success(StatsText(userName, s.value, showAverage, showDate))
  }

  /**
   * The "not written yet" reply comes exactly when the store answers and
   * the user has no message in the chat dated from the epoch on.
   */
  lemma NotYetExactly(conn: Connection, userId: int, chatId: int, userName: string, now: DateTime,
                      showAverage: real -> string, showDate: Instant -> string)
    requires Valid(now)
    ensures GenerateUserStatsMessage(conn, userId, chatId, userName, now, showAverage, showDate)
            == Success(NotYetText(userName))
            <==> conn.Connected? &&
                 forall m :: m in conn.tables.messages ==> !(m.userId == userId && m.chatId == chatId && m.messageDate >= 0)
  {
    AllStartsAtEpoch(now);
    if conn.Connected? {
      NotYetIffNone(conn, userId, chatId, userName, now, showAverage, showDate);
      UserStatsNone(conn.tables.messages, userId, chatId, StartMillis(All, now));
    }
  }

  /** All time starts at instant 0. */
  lemma AllStartsAtEpoch(now: DateTime)
    requires Valid(now)
    ensures StartMillis(All, now) == 0
  {
    EpochIsZero();
  }

  /** With the store answering, the "not written yet" reply comes exactly when there are no figures. */
  lemma NotYetIffNone(conn: Connection, userId: int, chatId: int, userName: string, now: DateTime,
                      showAverage: real -> string, showDate: Instant -> string)
    requires Valid(now) && conn.Connected?
    ensures GenerateUserStatsMessage(conn, userId, chatId, userName, now, showAverage, showDate)
            == Success(NotYetText(userName))
            <==> UserStatsOf(conn.tables.messages, userId, chatId, StartMillis(All, now)).None?
  {
    var s := UserStatsOf(conn.tables.messages, userId, chatId, StartMillis(All, now));
    if s.Some? {
      FiguresAreNotNotYet(userName, s.value, showAverage, showDate);
    }
  }

  /** The reply with figures is never the "not written yet" reply. */
  lemma FiguresAreNotNotYet(userName: string, s: UserStats, showAverage: real -> string, showDate: Instant -> string)
    requires s.messageCount > 0
    ensures StatsText(userName, s, showAverage, showDate) != NotYetText(userName)
  {
    var t := UserStatsTitle(userName);
    var figures := Figures(s, showAverage, showDate);
    assert figures[0] == ' ';
    assert (t + figures)[|t|] == ' ';
    assert NotYetText(userName)[|t|] == '\n';
  }

  /** `/analyze` reads at most this many recent messages of the user... */
  const AnalyzeWindow: nat := 100
  /** ...and needs at least this many. */
  const MinMessages: nat := 10

  datatype AnalyzeStep = NotEnough(text: string) | Analyze(messages: seq<Message>)

  /**
   * The gate of `/analyze`: with fewer than ten of the user's latest hundred
   * messages it replies how many there are and stops before the analyzer;
   * otherwise it hands those messages on. Since the window exceeds the
   * threshold, it stops exactly when the user has fewer than ten messages.
   */
  function AnalyzeGate(messages: seq<Message>, telegramId: int): (r: AnalyzeStep)
    ensures r.NotEnough? <==> |Filter(messages, ByUser(telegramId))| < MinMessages
    ensures r.Analyze? ==> && r.messages == RecentByUser(messages, telegramId, AnalyzeWindow)
                           && MinMessages <= |r.messages| <= AnalyzeWindow
                           && forall i :: 0 <= i < |r.messages| ==> r.messages[i].userId == telegramId
  {
    var recent := RecentByUser(messages, telegramId, AnalyzeWindow);
    RecentByUserSpec(messages, telegramId, AnalyzeWindow);
    if |recent| < MinMessages then
      NotEnough("Недостаточно данных для анализа (нужно минимум 10 сообщений, доступно: " + Show(|recent|) + ").")
    else
      Analyze(recent)
  }

  /** What the replies cache: the statistics pair, or the cloud and its message count. */
  datatype Payload =
    | StatsPayload(topUsers: seq<TopUserStats>, chatStats: ChatStats)
    | WordCloudPayload(words: seq<WordCount>, totalMessages: nat)

  /**
   * Why a reply fails: the store's error, or a cached value of the other
   * kind, which would make the formatter read a missing field.
   */
  datatype CommandError = StoreError(error: DbError) | TypeError

  /** `Promise.all` of two queries: both results, or the first failure. */
  function Both<A, B, E>(a: Result<A, E>, b: Result<B, E>): (r: Result<(A, B), E>)
    ensures r.Success? <==> a.Success? && b.Success?
    ensures r.Success? ==> r.value == (a.value, b.value)
    ensures a.Failure? ==> r == Failure(a.error)
    ensures a.Success? && b.Failure? ==> r == Failure(b.error)
  {
    match a
    case Failure(e) => Failure(e)
    case Success(x) =>
      match b
      case Failure(e) => Failure(e)
      case Success(y) => Success((x, y))
  }

  /** What `cacheService.get` answers. */
  function Peek(cache: Cache<Payload>, key: string, clock: int): Option<Payload>
    reads cache
  {
    if cache.failing then None else Lookup(cache.entries, key, clock)
  }

  /**
   * `generateChatStatsMessage`: on a hit the cached pair is formatted and no
   * query runs; on a miss both queries run, the pair is stored under the key
   * for the default time and then formatted. `queried` tells whether the
   * queries ran. `now` is the wall clock the periods are resolved against,
   * `clock` the cache's clock in seconds.
   */
  method GenerateChatStatsMessage(cache: Cache<Payload>, conn: Connection, chatId: int, p: Period, now: DateTime,
                                  clock: int)
    returns (r: Result<string, CommandError>, queried: bool)
    requires Valid(now)
    modifies cache
    ensures cache.failing == old(cache.failing)
    ensures var hit := old(Peek(cache, StatsKey(chatId, p), clock));
            && (queried <==> hit.None?)
            && (hit.Some? ==> cache.entries == old(cache.entries))
            && (hit.Some? && hit.value.StatsPayload? ==>
                  r == Success(ChatStatsText(hit.value.topUsers, hit.value.chatStats, p)))
            && (hit.Some? && hit.value.WordCloudPayload? ==> r == Failure(TypeError))
            && (hit.None? && conn.Down? ==>
                  r == Failure(StoreError(conn.error)) && cache.entries == old(cache.entries))
    ensures var hit := old(Peek(cache, StatsKey(chatId, p), clock));
            hit.None? && conn.Connected? ==>
              var topUsers := TopUsers(conn.tables, chatId, StartMillis(p, now));
              var chatStats := ChatStatsOf(conn.tables.messages, chatId, p, now);
              && r == Success(ChatStatsText(topUsers, chatStats, p))
              && cache.entries == if cache.failing then old(cache.entries)
                                  else Store(old(cache.entries), StatsKey(chatId, p), StatsPayload(topUsers, chatStats),
                                             clock, DefaultTtl)
  {
    var key := StatsKey(chatId, p);
    var cached := cache.Get(key, clock);
    if cached.Some? {
      match cached.value
      case StatsPayload(topUsers, chatStats) =>
        var text := FormatChatStats(topUsers, chatStats, p);
        return Success(text), false;
      case WordCloudPayload(_, _) =>
        return Failure(TypeError), false;
    }
    queried := true;
    var both := Both(GetTopUsers(conn, chatId, p, now), GetChatStats(conn, chatId, p, now));
    if both.Failure? {
      return Failure(StoreError(both.error)), true;
    }
    var (topUsers, chatStats) := both.value;
    cache.Set(key, StatsPayload(topUsers, chatStats), clock);
    var text := FormatChatStats(topUsers, chatStats, p);
    r := Success(text);
  }

  /**
   * `generateWordCloudMessage`: on a hit the cached cloud is formatted and
   * nothing is fetched; on a miss the cloud (twenty words at most) is
   * computed and formatted, and stored only when it has at least one word.
   */
  method GenerateWordCloudMessage(cache: Cache<Payload>, conn: Connection, chatId: int, p: Period, now: DateTime,
                                  clock: int)
    returns (r: Result<string, CommandError>, queried: bool)
    requires Valid(now)
    modifies cache
    ensures cache.failing == old(cache.failing)
    ensures var hit := old(Peek(cache, WordCloudKey(chatId, p), clock));
            && (queried <==> hit.None?)
            && (hit.Some? ==> cache.entries == old(cache.entries))
            && (hit.Some? && hit.value.WordCloudPayload? ==>
                  r == Success(WordCloudText(hit.value.words, hit.value.totalMessages, p)))
            && (hit.Some? && hit.value.StatsPayload? ==> r == Failure(TypeError))
            && (hit.None? && conn.Down? ==>
                  r == Failure(StoreError(conn.error)) && cache.entries == old(cache.entries))
    ensures var hit := old(Peek(cache, WordCloudKey(chatId, p), clock));
            hit.None? && conn.Connected? ==>
              var cloud := TopWords(Texts(InPeriod(conn.tables.messages, chatId, StartMillis(p, now))), 20);
              && r == Success(WordCloudText(cloud.words, cloud.totalMessages, p))
              && cache.entries == if cache.failing || cloud.words == [] then old(cache.entries)
                                  else Store(old(cache.entries), WordCloudKey(chatId, p),
                                             WordCloudPayload(cloud.words, cloud.totalMessages), clock, DefaultTtl)
  {
    var key := WordCloudKey(chatId, p);
    var cached := cache.Get(key, clock);
    if cached.Some? {
      match cached.value
      case WordCloudPayload(words, totalMessages) =>
        var text := FormatWordCloud(words, totalMessages, p);
        return Success(text), false;
      case StatsPayload(_, _) =>
        return Failure(TypeError), false;
    }
    queried := true;
    var result := GetTopWords(conn, chatId, p, now);
    if result.Failure? {
      return Failure(StoreError(result.error)), true;
    }
    var cloud := result.value;
    if |cloud.words| > 0 {
      cache.Set(key, WordCloudPayload(cloud.words, cloud.totalMessages), clock);
    }
    var text := FormatWordCloud(cloud.words, cloud.totalMessages, p);
    r := Success(text);
  }

  /**
   * A miss stores the pair, so the same request within the expiry is a hit
   * that runs no query and gives the same reply.
   */
  method StatsHitAfterMiss(cache: Cache<Payload>, conn: Connection, chatId: int, p: Period, now: DateTime,
                           clock: int, later: int)
    returns (first: Result<string, CommandError>, second: Result<string, CommandError>, queriedAgain: bool)
    requires Valid(now) && conn.Connected? && !cache.failing
    requires Peek(cache, StatsKey(chatId, p), clock).None?
    requires clock <= later < clock + DefaultTtl
    modifies cache
    ensures first.Success? && second == first && !queriedAgain
  {
    var queried;
    first, queried := GenerateChatStatsMessage(cache, conn, chatId, p, now, clock);
    second, queriedAgain := GenerateChatStatsMessage(cache, conn, chatId, p, now, later);
  }
}
