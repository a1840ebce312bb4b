# Chat analytics bot: a verified model of the read path

This project models the analytics core of a Telegram bot that logs the
messages of group chats and answers commands with statistics. The bot keeps
users and messages in PostgreSQL and caches its replies in Redis. The model
covers:

- the word-frequency engine (`WordCloudService.getTopWords`);
- period resolution and the three aggregate queries of `StatsService`;
- the Redis cache client (`CacheService`) with expiry and swallowed errors;
- the command helpers: the cache-aside assembly of the chat-statistics and
  word-cloud replies, the personal-statistics reply, the ten-message gate of
  `/analyze`, the reply formatters and the Russian plural of "message";
- the users and messages tables, read by `UserModel` and `MessageModel` and
  written by `findOrCreate` and `create`.

The database, the cache server and the clock are explicit state or
parameters. A `Connection` is either the tables or the error the pool raises.
The cache is a class whose fields are the key-to-entry map and a flag for a
failing client. The current time is a `DateTime` on an abstract calendar,
and expiry times are seconds on a separate integer clock.

Modules, one per file (all files are verified together):

| file | module | models |
|---|---|---|
| wrappers.dfy | Wrappers | `Option` and `Result` |
| decimal.dfy | Decimal | `${n}` and `Number(s)` on integers |
| calendar.dfy | Calendar | the parts of JavaScript `Date` that period resolution uses |
| period.dfy | Period | `getStartDate` |
| records.dfy | Records | the rows and result records of bot/src/types/index.ts |
| seqs.dfy | Seqs | filtering (SQL `WHERE`) |
| ranking.dfy | Ranking | the stable descending sort and `slice`/`LIMIT` |
| user_model.dfy | UserModel | the reads of bot/src/models/User.ts |
| message_model.dfy | MessageModel | the reads of bot/src/models/Message.ts |
| database.dfy | Database | the writes `findOrCreate` and `create` on a `Store` class |
| stats.dfy | StatsService | `getTopUsers`, `getUserStats`, `getChatStats` |
| wordcloud.dfy | WordCloudService | tokenising, filtering, counting, ranking |
| wordcloud_fixture.dfy | WordCloudFixture | the six-message example of the word-cloud test |
| cache.dfy | CacheService | `CacheService` |
| handler.dfy | CommandHandler | the helpers of bot/src/handlers/command.handler.ts |

Period resolution:

- Unlike `today` and `month`, `week` is not moved to midnight. It starts on
  the Monday of the current week at the current time of day: the code moves
  the date with `setDate` and never resets the clock
  (bot/src/services/stats.service.ts:16-19).
- `getStartDate` is repeated verbatim in bot/src/services/wordcloud.service.ts:17-32.
  Both copies are modelled by the one `Period.GetStartDate`.

## Model

| member | source | states |
|---|---|---|
| Decimal.Show | bot/src/handlers/command.handler.ts:207 | `${n}` is never empty; every character is a digit, except a leading minus sign |
| Decimal.ParseShow | bot/src/models/User.ts:112 | `Number` of the decimal text the driver emits for a BIGINT gives the integer back |
| Decimal.ShowInjective | bot/src/handlers/command.handler.ts:207 | distinct integers render as distinct text |
| Calendar.Weekday | bot/src/services/stats.service.ts:17 | `getDay` is in 0..6 |
| Calendar.EpochIsZero | bot/src/services/stats.service.ts:25 | `new Date(0)` is a valid date at instant 0, and a Thursday |
| Calendar.MakeDate | bot/src/services/stats.service.ts:19 | a day outside the month rolls into neighbouring months; the result is a real calendar day with the same day number and time of day |
| Calendar.StepBack | bot/src/services/stats.service.ts:18-19 | going back k days one day at a time lands on a real calendar day at the same time of day |
| Calendar.StepBackNumber | bot/src/services/stats.service.ts:18-19 | going back k days lowers the day number by exactly k |
| Calendar.SetDateIsStepBack | bot/src/services/stats.service.ts:18-19 | `setDate(getDate() - k)` with roll-over equals going back k days one at a time |
| Period.DaysSinceMonday | bot/src/services/stats.service.ts:17-18 | the Monday of the week lies at most 6 days back |
| Period.PeriodStart | bot/src/services/stats.service.ts:10-26 | the reference start of every period is a valid date-time |
| Period.GetStartDate | bot/src/services/stats.service.ts:10-26 | the step-by-step `Date` mutation gives exactly the reference start |
| Period.TodayStart | bot/src/services/stats.service.ts:12-14 | `today` is the current date at 00:00:00.000, less than a day before now |
| Period.WeekStart | bot/src/services/stats.service.ts:16-19 | `week` is a Monday at most 6 days back (exactly 6 on a Sunday), with no Monday in between, at the current time of day |
| Period.MonthStart | bot/src/services/stats.service.ts:21-22 | `month` is day 1 of the current month at midnight |
| Period.StartNotAfterNow | bot/src/services/stats.service.ts:10-26 | `all` is instant 0; every period starts no later than now |
| Seqs.Filter | bot/src/services/stats.service.ts:50 | `WHERE`: every row kept satisfies the condition, and a row is kept exactly when it is in the input and satisfies it |
| Seqs.FilterAppend | bot/src/services/stats.service.ts:50 | filtering a concatenation is filtering each part, in order |
| Seqs.FilterSubMultiset | bot/src/services/stats.service.ts:50 | `WHERE` invents and duplicates no row: the result is a sub-multiset of the input |
| Seqs.FilterKeepsCount | bot/src/services/stats.service.ts:50 | a row that satisfies the condition is kept as many times as it occurs |
| Ranking.SortDesc | bot/src/services/wordcloud.service.ts:84-85 | the sorted sequence is a permutation of the input, ordered non-increasing by key |
| Ranking.SortKeepsTies | bot/src/services/wordcloud.service.ts:85 | the sort is stable: entries with equal keys keep their input order |
| Ranking.SortDescSorted | bot/src/services/wordcloud.service.ts:85 | sorting an already sorted sequence changes nothing |
| Ranking.Take | bot/src/services/wordcloud.service.ts:86 | `slice(0, n)` is a prefix of length min(n, length) |
| Ranking.TakeIsTop | bot/src/services/stats.service.ts:52-53 | no element left out by `ORDER BY … DESC LIMIT n` has a larger key than one kept |
| UserModel.MapToUserRoundTrip | bot/src/models/User.ts:109-118 | `mapToUser` gives back every field of the stored user, the BIGINT id coerced from text |
| UserModel.FindByTelegramId | bot/src/models/User.ts:61-70 | none iff no row has the id; otherwise a row of the table with that id |
| UserModel.FindByUsername | bot/src/models/User.ts:77-86 | none iff no row has the username; otherwise a row with it |
| UserModel.FindByChatId | bot/src/models/User.ts:93-107 | exactly the users with a message in the chat, each once |
| MessageModel.MapToMessageRoundTrip | bot/src/models/Message.ts:105-114 | `mapToMessage` gives back every field, both ids coerced from text |
| MessageModel.RecentByUserSpec | bot/src/models/Message.ts:42-54 | only the user's rows, newest first, min(limit, n) of them (limit 50 by default), none left out newer than one kept |
| MessageModel.ByUserAndPeriodSpec | bot/src/models/Message.ts:68-87 | exactly the user's rows with start ≤ date ≤ end, both ends included, newest first |
| MessageModel.TotalCountAppend | bot/src/models/Message.ts:94-103 | a new row adds one to the count of its own chat and leaves every other chat's count alone |
| Database.UpdateNames | bot/src/models/User.ts:28-34 | the UPDATE overwrites the three name fields of the rows with that telegram id and leaves every other row as it was |
| Database.Store.FindOrCreate | bot/src/models/User.ts:10-54 | returns the user with the id, inserted with the next SERIAL id when absent, updated when a name differs, the table unchanged when nothing differs; afterwards exactly one row has the id and the constraints still hold; with the pool down, the error is raised again and nothing changes |
| Database.Store.CreateMessage | bot/src/models/Message.ts:10-34 | appends exactly the new row and returns it when a user has the id; otherwise fails with `messages_user_id_fkey` and leaves the table unchanged; with the pool down, the error is raised again and nothing changes |
| Database.UpdateUnchanged | bot/src/models/User.ts:37 | an update to the names the row already has changes nothing |
| Database.InsertKeepsValid | bot/src/models/User.ts:41-48 | inserting a new telegram id keeps the UNIQUE and REFERENCES constraints and finds the new row |
| StatsService.GroupsSound | bot/src/services/stats.service.ts:48-51 | every group of the join is the row of a user of the table, with that user's columns and a count of at least one |
| StatsService.GroupsComplete | bot/src/services/stats.service.ts:48-51 | every user with a qualifying message has a group |
| StatsService.GetTopUsers | bot/src/services/stats.service.ts:35-67 | the store's error is passed on unchanged; otherwise the ranked list |
| StatsService.TopUsersSpec | bot/src/services/stats.service.ts:41-53 | at most 10 rows, non-increasing by count, each counting only that user's messages in the chat dated from the start |
| StatsService.TopUsersAreTop | bot/src/services/stats.service.ts:52-53 | a user left off the list has no more qualifying messages than any user on it |
| StatsService.TopUsersComplete | bot/src/services/stats.service.ts:53 | with fewer than 10 rows, every user with a qualifying message is listed |
| StatsService.MinDate | bot/src/services/stats.service.ts:87 | `MIN(message_date)` is one of the dates and bounds them all from below |
| StatsService.MaxDate | bot/src/services/stats.service.ts:88 | `MAX(message_date)` is one of the dates and bounds them all from above |
| StatsService.UserMessages | bot/src/services/stats.service.ts:90 | exactly the user's messages in the chat dated from the start |
| StatsService.GetUserStats | bot/src/services/stats.service.ts:76-108 | the store's error is passed on unchanged; otherwise the figures or null |
| StatsService.UserStatsNone | bot/src/services/stats.service.ts:94-96 | null exactly when the user has no qualifying message |
| StatsService.UserStatsSome | bot/src/services/stats.service.ts:98-103 | otherwise the count is at least 1 and is the number of qualifying messages, and the first and last dates are among them, bound them all and are in order |
| StatsService.TopUsersAgreeWithUserStats | bot/src/services/stats.service.ts:47 | a user on the top list has figures with the same count |
| StatsService.UserIds | bot/src/services/stats.service.ts:126 | `COUNT(DISTINCT user_id)`: the set of authors, never larger than the number of messages |
| StatsService.GetChatStats | bot/src/services/stats.service.ts:116-142 | the store's error is passed on unchanged; otherwise a record, always |
| StatsService.ChatStatsSpec | bot/src/services/stats.service.ts:124-137 | the count of qualifying messages and authors, zero exactly when nothing qualifies, never more authors than messages, from the resolved start to now |
| WordCloudService.LowerStr | bot/src/services/wordcloud.service.ts:67 | `toLowerCase` maps each character and keeps the length |
| WordCloudService.LowerStrIdempotent | bot/src/services/wordcloud.service.ts:67 | lower-casing twice is lower-casing once |
| WordCloudService.Tokens | bot/src/services/wordcloud.service.ts:67 | every token of the split is non-empty and holds no separator |
| WordCloudService.TokensOfJoined | bot/src/services/wordcloud.service.ts:67 | splitting undoes joining words with separators |
| WordCloudService.Utf16LengthBmp | bot/src/services/wordcloud.service.ts:72 | below U+10000, `length` is the number of characters |
| WordCloudService.Dedup | bot/src/services/wordcloud.service.ts:78 | the map's keys: the same words as the tokens, each once |
| WordCloudService.Tally | bot/src/services/wordcloud.service.ts:78 | each key with its number of occurrences |
| WordCloudService.CountWords | bot/src/services/wordcloud.service.ts:61-81 | the counting loops give the map whose keys are the kept tokens in first-insertion order, each with its number of occurrences |
| WordCloudService.GetTopWords | bot/src/services/wordcloud.service.ts:41-95 | the store's error is passed on unchanged; otherwise the reference top words of the chat's texts since the period's start |
| WordCloudService.TopWordsOfNothing | bot/src/services/wordcloud.service.ts:56-58 | no fetched row gives no words and a total of 0 |
| WordCloudService.TopWordsFiltered | bot/src/services/wordcloud.service.ts:6-15 | every word is longer than two, no stop word, and does not start with `@`, `#` or `http`; its count is its number of occurrences among all lower-cased tokens; the words are pairwise distinct |
| WordCloudService.TopWordsRanked | bot/src/services/wordcloud.service.ts:84-89 | non-increasing by count, ties in first-insertion order, exactly min(`limit`, number of distinct counted words) words, a prefix of the full ranking, which holds every counted word; `totalMessages` is the number of rows |
| WordCloudFixture.TopWordsOfSample | bot/src/services/__tests__/wordcloud.service.test.ts:13-33 | on the six test messages with limit 5: test 4, hello 2, world 2, again 1, fun 1, and 6 messages |
| CacheService.Store | bot/src/services/cache.service.ts:62 | `SET … EX ttl`: the value reads back until the expiry and is gone from then on; a non-positive ttl changes nothing; other keys are untouched |
| CacheService.Remove | bot/src/services/cache.service.ts:75 | `DEL`: the key is absent from then on; other keys are untouched |
| CacheService.StarMatchesAll | bot/src/services/cache.service.ts:89 | the pattern `*` matches every key |
| CacheService.PlainMatchesItself | bot/src/services/cache.service.ts:89 | a pattern without `*`, `?` or `\` matches exactly itself |
| CacheService.PrefixStarMatches | bot/src/services/cache.service.ts:89 | `prefix*` matches exactly the keys that start with the prefix |
| CacheService.Matching | bot/src/services/cache.service.ts:89 | `KEYS pattern`: exactly the keys that match, character by character, and have not expired at the current second |
| CacheService.RemoveMatching | bot/src/services/cache.service.ts:89-92 | from the delete on, the matching keys read as absent and the others as before; only the live matching entries are dropped, expired ones stay stored; nothing changes when nothing is listed |
| CacheService.Cache.constructor | bot/src/services/cache.service.ts:100 | a new client holds no entries and does not fail |
| CacheService.Cache.Get | bot/src/services/cache.service.ts:41-50 | the unexpired stored value; null for an absent or expired key, and null when the client fails |
| CacheService.Cache.Set | bot/src/services/cache.service.ts:58-66 | stores the value for ttl seconds, 1200 by default; a failing client changes nothing and raises nothing |
| CacheService.Cache.Delete | bot/src/services/cache.service.ts:72-79 | removes the key; a failing client changes nothing and raises nothing |
| CacheService.Cache.DeletePattern | bot/src/services/cache.service.ts:86-96 | removes exactly the live matching keys; issues the delete only when `KEYS` lists some key; a failing client changes nothing |
| CacheService.SetThenGet | bot/src/services/cache.service.ts:45-62 | a read before the expiry gives back the value just stored; from the expiry on it gives nothing |
| CacheService.RemovePrefix | bot/src/services/cache.service.ts:89-92 | deleting `prefix*` removes exactly the keys with that prefix |
| CacheService.ExpiredNotDeleted | bot/src/services/cache.service.ts:89-92 | when every entry has expired, `KEYS` lists nothing, so no delete is sent and the store stays as it was |
| CommandHandler.PeriodTagInjective | bot/src/handlers/command.handler.ts:11 | the period's text tells the period |
| CommandHandler.StatsKeyInjective | bot/src/handlers/command.handler.ts:207 | distinct chats or periods get distinct `stats:` keys |
| CommandHandler.WordCloudKeyInjective | bot/src/handlers/command.handler.ts:230 | distinct chats or periods get distinct `wordcloud:` keys |
| CommandHandler.KeysDisjoint | bot/src/handlers/command.handler.ts:207 | no statistics key is a word-cloud key |
| CommandHandler.GetMessagesNoun | bot/src/handlers/command.handler.ts:273-277 | the table lookup always yields one of the three forms |
| CommandHandler.NounRule | bot/src/handlers/command.handler.ts:273-277 | 'сообщений' from 5 to 19 modulo 100; otherwise 'сообщение' for a last digit 1, 'сообщения' for 2 to 4, 'сообщений' for the rest |
| CommandHandler.IconInjective | bot/src/handlers/command.handler.ts:248-251 | medals for ranks 0 to 2 and a number with a keycap after that label every rank differently |
| CommandHandler.DisplayName | bot/src/handlers/command.handler.ts:250 | never empty; `@username` whenever the username is non-empty |
| CommandHandler.FormatChatStats | bot/src/handlers/command.handler.ts:243-257 | the `msg +=` loop builds exactly the reference reply |
| CommandHandler.ChatStatsTextEmpty | bot/src/handlers/command.handler.ts:245 | the reply is the header and 'Нет данных для отображения.' exactly when the top list is empty |
| CommandHandler.FormatWordCloud | bot/src/handlers/command.handler.ts:259-271 | the `msg +=` loop builds exactly the reference reply |
| CommandHandler.WordCloudTextEmpty | bot/src/handlers/command.handler.ts:261 | the reply is the header and 'Недостаточно слов для анализа.' exactly when there are no words |
| CommandHandler.GenerateUserStatsMessage | bot/src/handlers/command.handler.ts:221-227 | the store's error is passed on |
| CommandHandler.NotYetExactly | bot/src/handlers/command.handler.ts:222-225 | the "not written yet" reply comes exactly when the store answers and the user has no message in the chat |
| CommandHandler.NotYetIffNone | bot/src/handlers/command.handler.ts:223-224 | with the store answering, that reply comes exactly when there are no figures |
| CommandHandler.FiguresAreNotNotYet | bot/src/handlers/command.handler.ts:224-226 | the reply with figures is never the "not written yet" reply |
| CommandHandler.AnalyzeGate | bot/src/handlers/command.handler.ts:147-150 | stops before the analyzer exactly when the user has fewer than 10 messages; otherwise passes on their latest 100 at most, at least 10, all theirs |
| CommandHandler.Both | bot/src/handlers/command.handler.ts:212-215 | `Promise.all`: both results, or the first failure |
| CommandHandler.GenerateChatStatsMessage | bot/src/handlers/command.handler.ts:206-219 | a hit formats the cached pair, runs no query and leaves the cache alone; a miss runs both queries, then stores the pair under `stats:<chat>:<period>` for the default ttl and formats it; a store error leaves the cache alone |
| CommandHandler.GenerateWordCloudMessage | bot/src/handlers/command.handler.ts:229-241 | a hit formats the cached cloud and fetches nothing; a miss computes the top 20 words and formats them, storing them only when there is at least one |
| CommandHandler.StatsHitAfterMiss | bot/src/handlers/command.handler.ts:208-216 | after a miss, the same request within the ttl is a hit that runs no query and gives the same reply |

## Left out

- Telegram plumbing is not modelled. This covers command registration, keyboards, replies and edits, and user lookup through the Telegram API for `/analyze @username` or a reply. It is I/O over a library the model cannot see.
- The AI analysis after the `/analyze` gate is not modelled. It is a call to a foreign service.
- The reads of `UserModel` (`findByTelegramId`, `findByUsername`, `findByChatId`) and `MessageModel` (`getRecentByUser`, `getByUserAndPeriod`, `getTotalCount`) are modelled on a live pool only. They take the tables and have no error path. Their catch-log-rethrow blocks (bot/src/models/User.ts:66-69, 82-85, 103-106; bot/src/models/Message.ts:55-58, 83-86, 99-102) are not modelled.
- The Redis connection lifecycle is not modelled: `connect`, the events that flip `isConnected`, and `ensureConnected`. A client that is down is the `failing` flag.
- The pg pool is not modelled, and neither is the schema beyond the UNIQUE and REFERENCES constraints. A failing pool is `Connection.Down` for the reads of `StatsService` and `getTopWords`, and `Store.failure` for the writes. The pool is either up or down for a whole call. A failure between the SELECT and the UPDATE or INSERT of `findOrCreate` is not modelled.
- The JSON encoding of cached values is taken as the identity. A cached `Date` really comes back as a string, but the formatters never read the dates.
- `Promise.all` is modelled as the two results taken in order (`CommandHandler.Both`). The two queries are independent reads, so concurrency changes nothing visible.
- Every clock read is taken as the same `now`. Each `getStartDate` call reads the clock afresh (bot/src/services/stats.service.ts:11, bot/src/services/wordcloud.service.ts:18). `getTopUsers`, `getUserStats`, `getChatStats` and `getTopWords` each make such a call (bot/src/services/stats.service.ts:39,81,120, bot/src/services/wordcloud.service.ts:46). This includes the two parallel queries behind `/stats`. `getChatStats` also reads the clock a second time for `periodEnd` (bot/src/services/stats.service.ts:121). The model passes one `now` to all of these reads, because they lie within the same moment unless a period boundary falls between them.
- Floating point is not modelled. `UserStats` keeps the exact total length, and the average is that total over the count. `toFixed(1)` and `toLocaleDateString('ru-RU')` are parameters of `GenerateUserStatsMessage`.
- Time zones, and JavaScript `Date` limits beyond the calendar arithmetic, are not modelled. Local time equals the epoch's time.
- Full Unicode lower-casing is not modelled. `toLowerCase` maps Latin A-Z and Cyrillic U+0400-U+042F, the scripts of the stop words. Other characters are unchanged.
- The regex engine is not modelled. The separator class is a fixed character set. The split keeps the maximal separator-free runs and omits the empty pieces at either end, which the length filter drops anyway.
- SQL leaves the order of tied counts open in `getTopUsers`. The model ranks tied users in users-table order.
- Decimal.ParseShow: the round trip is stated for every integer. JavaScript `Number` is exact only up to 2^53 in magnitude, and the model's integers are unbounded. Telegram user and chat ids fit in 53 bits, so within the bot's range the round trip is exact.
- UserModel.MapToUserRoundTrip: `Number(row.telegram_id)` (bot/src/models/User.ts:112) is taken as exact. This holds only because Telegram ids fit in 53 bits; a larger BIGINT would be rounded.
- MessageModel.MapToMessageRoundTrip: `Number(row.user_id)` and `Number(row.chat_id)` (bot/src/models/Message.ts:108-109) are taken as exact. This holds only because Telegram ids fit in 53 bits; a larger BIGINT would be rounded.
- CacheService.Matches: the `[…]` character classes of Redis glob patterns are not modelled. A `[` matches itself. The bot never deletes by pattern with a class.
- CacheService.Matches: keys are matched character by character, while Redis matches the key's UTF-8 bytes. So `?` differs on non-ASCII keys: `a?` matches the model's two-character key `aё`, while Redis sees three bytes and lists nothing. `Matching`, `RemoveMatching` and `Cache.DeletePattern` inherit this. Every key the bot builds (`stats:<chat>:<period>`, `wordcloud:<chat>:<period>`) is ASCII, where the two agree.
- CommandHandler.DisplayName: the contract does not restate the fallback from the first name to `Unknown`. The definition spells it out.
- CommandHandler.GenerateUserStatsMessage: its own contract states only the error case. The replies are stated by `NotYetExactly`, `NotYetIffNone` and `FiguresAreNotNotYet`.
- The cache's key type is a string and its value type a parameter. The expiry clock is an integer of seconds, given by the caller.
