# Chzzk chat bot command engine, in Dafny

This project models the command engine of a chat bot for a live-stream chat (`run_buzzk.js`). The bot reads each batch of chat messages in order. It classifies every message text as a command:

- `!가위바위보` plays rock-paper-scissors and keeps per-user win/loss/draw counters in the `game_results` table.
- `!주가` looks up a stock price.
- `!업타임`, `!시청자수` and `!방제` answer from the live detail, and `!팔로우` from the user record.
- `!명령어` answers with a fixed command list.

Anything else is ignored. Separately, the bot sends a decorated broadcast at start-up and then schedules the next one after a random pause, again and again.

The model does not call the network, the clock or the random source. Each message carries a `World` value instead:

- the user lookup: whether the awaited `getUserInfo` request rejects, and what it resolves to;
- the random draw for the bot's move;
- the stock lookup result;
- the live detail, with elapsed times already turned into whole milliseconds.

A draw of `Math.random()` is an exact fraction `num / den` in [0, 1).

Modules, one per concern of the source:

- `Wrappers`: the `Option` type.
- `Text`: `startsWith`, `split(" ")` and the second token.
- `Random`: the floor-scaled draw, `randomEmoji` and the broadcast pause.
- `Clock`: uptime and follow-day arithmetic.
- `Game`: moves, parsing and outcome.
- `Stats`: the table as a map, the upsert as a function, and the `StatsStore` class.
- `Commands`: the dispatch chain as `Classify`.
- `Bot`: the per-message reaction and the batch as functions, the `Chat` class, and the `HandleRcp` / `HandleMessage` / `OnMessage` methods proved against those functions.

Some behaviour follows the code rather than a cleaner design:

- A `!팔로우` whose user has an undefined or invalid follow date is answered with `NaN` days (`FollowElapsed(None)`), not with a "not following" reply. A null follow date counts from the epoch, as `new Date(null)` does, so it reaches `World` as `Some` of the milliseconds elapsed since 1970.
- A `!팔로우` whose user lookup returns null throws.
- A failed live-detail request throws too. So does a rejected `getUserInfo` at line 111, for every message, before its text is looked at.
- No handler catches these exceptions, so an exception ends the `for` loop and the rest of the batch is skipped (`Fault`, `ReactAllStopped`).
- The game reply's tally is read back with a separate `SELECT` after the upsert.

## Model

| member | source | states |
|---|---|---|
| Text.Split | run_buzzk.js:114 | `split(" ")` gives at least one piece; no piece holds a space; joining the pieces with single spaces gives back the text |
| Text.SplitJoin | run_buzzk.js:114 | splitting is the inverse of joining space-free pieces, so the split is the only such cut of the text |
| Text.SecondTokenAbsent | run_buzzk.js:114 | `split(" ")[1]` is undefined exactly when the text contains no space |
| Text.SecondTokenOf | run_buzzk.js:113-117 | the argument is the word right after the first space; later words are ignored |
| Random.Scale | run_buzzk.js:35 | `Math.floor(r * n)` is the floor of n·num/den and lies below n for n > 0 |
| Random.ScaleOnto | run_buzzk.js:35 | every index below n is produced by some draw |
| Random.EmojiIndex | run_buzzk.js:34-36 | the index `randomEmoji` reads lies in [0, 3) |
| Random.RandomEmoji | run_buzzk.js:34-36 | `randomEmoji()` always returns an entry of the three-emoji pool |
| Random.EveryEmojiDrawable | run_buzzk.js:20 | each of the three emojis can be drawn |
| Random.BroadcastDelay | run_buzzk.js:147 | the broadcast pause `floor(r*(250000-150000+1)) + 100000` lies in [100000, 200000] ms |
| Random.BroadcastDelayOnto | run_buzzk.js:147 | every pause from 100000 to 200000 ms can occur, so the bounds are tight |
| Clock.Uptime | run_buzzk.js:125-126 | minutes and seconds are below 60, and h·3600000 + m·60000 + s·1000 + ms mod 1000 == ms (truncation, not rounding) |
| Clock.UptimeUnique | run_buzzk.js:126 | any such decomposition of ms equals the one reported |
| Clock.UptimeExample | run_buzzk.js:126 | 1 h 5 min 30 s (and up to 999 ms more) is reported as 1, 5, 30 |
| Clock.FollowDays | run_buzzk.js:138-139 | days is the floor of diff / 86400000: days·86400000 <= diff < (days+1)·86400000 |
| Game.ParseMove | run_buzzk.js:39-44 | a move is accepted exactly when the token is one of 가위, 바위, 보; a missing token and every other token are rejected |
| Game.BotMove | run_buzzk.js:39-40 | the bot's move is the `RCP` entry at index floor(3·r): its index k satisfies k·den <= 3·num < (k+1)·den |
| Game.BotMoveOnto | run_buzzk.js:40 | each move can be drawn by the bot |
| Game.ResolveCyclic | run_buzzk.js:46-53 | the outcome chain agrees with cyclic precedence: draw iff equal moves, win iff the user's move comes right after the bot's in 가위, 바위, 보 order, loss otherwise |
| Game.ResolveAntisymmetric | run_buzzk.js:46-53 | swapping players turns a win into a loss and keeps a draw |
| Game.ExactlyOneAnswer | run_buzzk.js:46-53 | for each user move and outcome exactly one bot move produces that outcome |
| Game.AllPairsComplete | run_buzzk.js:46-53 | the nine (user, bot) pairs enumerate every combination |
| Game.OutcomeCounts | run_buzzk.js:46-53 | of the nine pairs exactly three are wins, three losses, three draws |
| Stats.Delta | run_buzzk.js:55-60 | the inserted/added row has exactly one counter at 1 |
| Stats.Upserted | run_buzzk.js:62-69 | the upsert adds the user's key if absent and keeps every other user's row |
| Stats.Bumped | run_buzzk.js:62-69 | incrementing the outcome's counter raises the total by one and leaves the other two counters as they were |
| Stats.UpsertedBumps | run_buzzk.js:62-69 | INSERT…ON CONFLICT DO UPDATE equals "zero-default row, then +1 on the outcome's counter" |
| Stats.UpsertedFrame | run_buzzk.js:62-69 | every other user reads back the same row |
| Stats.UpsertedGrows | run_buzzk.js:62-69 | no row is removed and no counter decreases |
| Stats.GrownTransitive | run_buzzk.js:62-69 | "rows kept, counters not lowered" composes over successive updates |
| Stats.StatsStore.constructor | run_buzzk.js:10-18 | opening the database keeps the rows already persisted |
| Stats.StatsStore.Select | run_buzzk.js:71 | the SELECT finds a row exactly when the user has one, and returns it |
| Stats.StatsStore.Upsert | run_buzzk.js:62-69 | the table becomes `Upserted` of the old one, and no counter decreases |
| Commands.Classify | run_buzzk.js:113-141 | game iff the text starts with `!가위바위보`; stock iff it starts with `!주가`; each of the five exact commands iff equal; each prefix command gets `split(" ")[1]`; ignored iff none of these |
| Commands.PrefixesDisjoint | run_buzzk.js:113-136 | no text passes two tests of the chain, so its order never picks between handlers |
| Commands.ClassifyGame | run_buzzk.js:113-114 | `!가위바위보 <move> …` carries `<move>` as the choice |
| Commands.ClassifyGameNoMove | run_buzzk.js:113-114 | the game command without a space after it carries no move |
| Commands.ClassifyStock | run_buzzk.js:116-117 | `!주가 <name> …` carries `<name>` as the fragment |
| Commands.ClassifyIgnoredExamples | run_buzzk.js:123-141 | `!업타임 ` with a trailing space, `업타임`, `!스펙` and the empty text are ignored |
| Commands.AdvertisedCommands | run_buzzk.js:135 | every command the help text lists reaches a handler except `!스펙` |
| Bot.UserId | run_buzzk.js:111 | the user id is the platform id when the lookup resolves to a non-empty id; for a null result or an empty id it is `guest_` followed by the author id |
| Bot.GuestIdsDistinct | run_buzzk.js:111 | unresolved authors with different ids get different rows |
| Bot.PlayRound | run_buzzk.js:38-79 | an invalid move gives the instruction reply and leaves the table unchanged; a valid move's reply carries the bot's move, the outcome and the user's row read after the update |
| Bot.PlayRoundRecords | run_buzzk.js:55-78 | a valid round creates the row if absent; the reply's tally is the prior record with exactly the outcome's counter raised by one |
| Bot.PlayRoundFrame | run_buzzk.js:62-69 | a round never changes another user's row |
| Bot.StockReply | run_buzzk.js:119-122 | a found item gives the 현재가/고가/저가 reply built from clpr/hipr/lopr; no item gives the "not found" reply; both carry the requested name |
| Bot.FollowReply | run_buzzk.js:137-140 | the day count is floor(diff / 86400000), and it is NaN exactly when the follow date is undefined or invalid; a null one counts from the epoch |
| Bot.ReactCases | run_buzzk.js:109-141 | only the game writes the table; a message is silent iff its text is no command and the user lookup did not reject; it throws iff the user lookup rejects or a needed live detail or user record is missing; an invalid move gets the instruction without a table change |
| Bot.ReactAll | run_buzzk.js:108-143 | a batch sends at most one reply per message |
| Bot.ReactAllStopped | run_buzzk.js:109-142 | after a handler throws, the rest of the batch changes nothing |
| Bot.IgnoredBatch | run_buzzk.js:108-143 | a batch of non-commands whose user lookups do not reject sends nothing and leaves the table unchanged |
| Bot.ReactTotal | run_buzzk.js:109-142 | one message raises a user's wins+losses+draws by one exactly when it is a valid round by that user, otherwise by zero |
| Bot.ReactAllTotal | run_buzzk.js:108-143 | over a batch in which no handler throws, each user's total grows by the number of valid rounds that user played |
| Bot.ReactGrows | run_buzzk.js:109-142 | handling a message never removes a row or lowers a counter |
| Bot.ReactAllGrows | run_buzzk.js:108-143 | counters are never reset or decremented across a batch |
| Bot.HandleRcp | run_buzzk.js:38-79 | `handleRCP` leaves the store and the chat as `PlayRound` prescribes (upsert, then SELECT, then one send) |
| Bot.HandleMessage | run_buzzk.js:109-141 | one loop iteration changes store and chat as `React` prescribes and reports whether the handler threw |
| Bot.OnMessage | run_buzzk.js:108-143 | the batch loop leaves the store and the sent replies as `ReactAll` prescribes, and no counter decreases |

## Left out

- `update_env.py`: browser automation, cookie reading and `.env` writing; it is all I/O.
- Login, channel search, `chat.connect`, `onDisconnect` and the credential check with `process.exit` (run_buzzk.js:21-30, 102-106, 154-156): external library calls and process control.
- `getUserInfo` and `live.getDetail`: modelled only through their results in `World`. The second `getUserInfo` call of `!팔로우` (line 137) is assumed to give the same result as the first (line 111), including a rejection.
- `getStockInfo`'s HTTP request (run_buzzk.js:81-97): modelled only through its result, an optional item. A transport failure is folded into "no item", as the source does.
- `chat.send`: modelled as appending to `Chat.sent`. A rejected send is not modelled: neither a rejected reply send, which would end the batch, nor the broadcast send's rejection, which line 149 catches and logs.
- SQLite: the table is a map. Storage failures, durability and concurrent access are not modelled.
- `Math.random` and `new Date()`: draws are exact fractions and elapsed times are whole non-negative milliseconds. Floating-point rounding of `r * n` and negative elapsed times (a start time in the future) are not modelled. An undefined or invalid `lvDetail.startOn` (run_buzzk.js:125-126), which makes the uptime reply read `NaN시간 NaN분 NaN초`, is not modelled either: `LiveDetail.elapsed` is always a number.
- `autoMessageLoop`'s `setTimeout` self-rescheduling, and the interleaving of broadcasts and async handlers (run_buzzk.js:146-152): timers and concurrency. Only its pause is modelled (`BroadcastDelay`).
- Reply texts: replies are structured values that carry exactly the figures the source interpolates. The fixed wording and the emoji decoration of the uptime, viewer, follow and broadcast messages are left out.
- Messages whose text is not a string: the model takes every message text as a string.
