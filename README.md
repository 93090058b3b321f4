# ParticleAI engagement ledger, modelled in Dafny

ParticleAI is a TikTok Live companion. Two Node servers (the current `server.mjs`, the
older `server.js`) listen to live events and keep an **engagement ledger** in `db.users`.
The ledger maps a user id to a record holding nickname, avatar, likes, points, gifts,
comments and shares, and it is persisted to `data.json` after every change. Each server
serves `/api/stats`: a top-5 leaderboard plus totals. A dashboard page
(`dashboard/script.js`) looks a user up in `data.json` by nickname.

This project models that core and proves properties of it:

- `JsValues`: JavaScript's `x || d` on numbers and strings (absent, `0` or `""` give `d`).
- `JsText`: `String.prototype.trim` with JavaScript's whitespace set, and lower-casing.
- `Ledger`: the user record, the ledger (a map plus the key order that `Object.entries`
  and `for...in` follow), `Object.entries`, writing one record, and loading `data.json`
  with its fallback to `{ users: {} }`.
- `Ranking`: the stats pipeline shared by both servers. The sort is a stable sort by
  descending key (proved to be the only stable sort), followed by `slice(0, 5)` and the
  key sum.
- `LikeLog`: the per-user like-log throttle of `server.mjs`. It logs after 100 likes or
  more than 30 s, with time as a parameter.
- `ServerMjs`: the `like`, `gift`, `chat` and `share` handlers as methods of a `Server`
  class that updates the ledger in place. Each method is proved equal to a function on
  ledgers (`AfterLike`, ...). The module also holds `/api/stats` with its filter and
  lemmas about streams of events: points added, duplicates, monotonicity.
- `ServerJs`: the older like-only handler and its unfiltered, likes-ordered stats.
- `Dashboard`: username normalisation and the first-match lookup loop.

The model follows the code in these places:

- Negative `likeCount`/`repeatCount` values are not clamped. They pass straight through
  and lower likes and points (`ServerMjs.NegativeLikeLowers`). The monotonicity lemmas
  therefore require non-negative multipliers.
- `like` and `gift` overwrite the avatar even with an empty one, and with `undefined`
  when `profilePicture.urls` is an empty array.
- The leaderboard filter drops only blank nicknames, so `"Anonymous"` is listed.
- Ties are broken by ledger key order, so the ledger is modelled with its key order.

## Model

| member | source | states |
|---|---|---|
| JsText.Trim | dashboard/script.js:4 | the trimmed input is empty exactly when every character is JavaScript whitespace; otherwise it starts and ends with a non-space character |
| JsText.TrimDropsBlankEnds | dashboard/script.js:4 | the input is the trimmed string with only white space before and after it, so `trim` removes nothing else |
| JsText.ToLower | dashboard/script.js:18 | lower-casing keeps the length and maps each character by itself |
| Ledger.DisplayName | server.mjs:40 | the display name is the `uniqueId` when that is non-empty, else the `nickname` when that is non-empty, else `'Anonymous'`; it is never empty (same chain at server.js:35) |
| Ledger.EntriesOf | server.mjs:119-120 | one entry per key, in key order, carrying that key's record |
| Ledger.Entries | server.mjs:119-120 | `Object.entries(db.users)` has one entry per user, in key order, each with the user's id and record |
| Ledger.PutChangesOnly | server.mjs:44-51 | writing the record at an id keeps the ledger well formed; a new id becomes the newest key; every other record stays exactly as it was |
| Ledger.ChangesOnlyIsPut | server.mjs:44-51 | a change confined to one id is a write of that id's new record |
| Ledger.EntriesPutExisting | server.mjs:46-51 | updating a stored user keeps its place in `Object.entries` and changes only that entry |
| Ledger.EntriesPutNew | server.mjs:44-45 | a new user's entry comes after all existing entries |
| Ledger.Load | server.mjs:19-22 | a missing or unparsable `data.json` yields the empty ledger, a parsed one yields its contents (same code at server.js:17-20) |
| Ledger.Save | server.mjs:23 | `saveDB` writes a parseable file holding exactly the current ledger |
| Ledger.ReloadRestores | server.mjs:19-23 | loading what `saveDB` wrote restores exactly the saved ledger |
| LikeLog.Step | server.mjs:54-65 | a first like only starts tracking; afterwards a line is logged exactly when 100 likes have accumulated or more than 30000 ms have passed, logging resets both fields, otherwise the state is unchanged |
| LikeLog.Observe | server.mjs:54-65 | the throttle changes only the entry of the liking user in `likeLogState` |
| LikeLog.SteadyRunLogs | server.mjs:59-65 | within a 30 s window, single likes log once per 100 likes accumulated |
| LikeLog.BurstLogs | server.mjs:56-65 | a first burst of single likes within 30 s logs once per full 100 likes after the first |
| LikeLog.HundredFiftyLikesLogOnce | server.mjs:56-65 | 150 single likes within 30 s log exactly one line |
| Ranking.Top | server.mjs:123 | `slice(0, n)` is the prefix of length min(n, length): the whole list when it is short, exactly n entries otherwise |
| Ranking.Total | server.mjs:124 | the key sum is non-negative when every key is, and at least the number of entries when every key is positive |
| Ranking.Insert | server.mjs:122 | inserting keeps every entry and adds one |
| Ranking.Rank | server.mjs:122 | the sorted list is a permutation of its input in non-increasing key order |
| Ranking.RankIsStable | server.mjs:122 | entries with equal keys keep their input order |
| Ranking.SortIsRank | server.mjs:122 | every sorted, tie-order-preserving permutation of the input equals `Rank`, so any conforming stable sort gives the same leaderboard |
| Ranking.RankKeepsTotal | server.mjs:124 | sorting does not change the key sum |
| Ranking.TopDominates | server.mjs:123 | an entry cut off by `slice(0, n)` ranks no higher than any kept one |
| Ranking.TopTiesArePrefix | server.mjs:123 | for every key, the kept entries with that key are the first ones with it |
| Ranking.TopOfSorted | server.mjs:123 | the first `n` of a sorted list are sorted and are entries of the list |
| Ranking.PutTotal | server.mjs:124 | writing one record changes the ledger-wide key sum by exactly that record's change of key; a new record adds its key |
| ServerMjs.Sender | server.mjs:38 | the event's `user` object when it has one, the event itself otherwise |
| ServerMjs.UserKey | server.mjs:39 | the key is never empty: the sender's `userId` when non-empty, `"undefined"` when it is missing or empty |
| ServerMjs.Avatar | server.mjs:41 | `urls[0]` when `profilePicture.urls` is a non-empty array, `undefined` when it is an empty one, `""` when there is no such array |
| ServerMjs.LikeCount | server.mjs:43 | the like count is never 0: the event's `likeCount` when non-zero, 1 when it is missing or 0 |
| ServerMjs.RepeatCount | server.mjs:75 | the repeat count is never 0: the event's `repeatCount` when non-zero, 1 when it is missing or 0 |
| ServerMjs.AfterLike | server.mjs:37-52 | likes and points rise by `likeCount`, or 1 when it is absent or 0 (missing points read as 0); a new user starts from likes 0, points 0; nickname and avatar are overwritten; other counters and other users are unchanged |
| ServerMjs.AfterGift | server.mjs:69-85 | with r the `repeatCount`, or 1 when absent or 0, points rise by 1000 × r and giftsSent by r; nickname and avatar are overwritten; likes, comments, shares and other users are unchanged |
| ServerMjs.AfterChat | server.mjs:90-99 | exactly 100 points and one comment; a stored user keeps name and avatar; a new user gets the event's name and an empty avatar |
| ServerMjs.AfterShare | server.mjs:104-113 | exactly 300 points and one share; a stored user keeps name and avatar; a new user gets the event's name and an empty avatar |
| ServerMjs.Server.constructor | server.mjs:19-22 | the server starts with the ledger loaded from `data.json` and an empty throttle |
| ServerMjs.Server.SaveDb | server.mjs:23 | the file afterwards holds the whole current ledger |
| ServerMjs.Server.OnLike | server.mjs:37-66 | the in-place update yields `AfterLike` of the old ledger, is saved, and runs the throttle on the user's new like total |
| ServerMjs.Server.LogLike | server.mjs:54-65 | the throttle block updates `likeLogState` as `Observe` says and reports whether it logged |
| ServerMjs.Server.OnGift | server.mjs:69-87 | the in-place update yields `AfterGift` of the old ledger and is saved; the throttle is untouched |
| ServerMjs.Server.OnChat | server.mjs:90-101 | the in-place update yields `AfterChat` of the old ledger and is saved |
| ServerMjs.Server.OnShare | server.mjs:104-115 | the in-place update yields `AfterShare` of the old ledger and is saved |
| ServerMjs.Listed | server.mjs:121 | a user is listed exactly when `points || 0` is positive and the nickname is a string with at least one non-white-space character |
| ServerMjs.Miners | server.mjs:121 | the filter keeps exactly the users with positive points and a non-blank string nickname, in their ledger order |
| ServerMjs.GetStats | server.mjs:118-127 | the leaderboard has min(5, listed) entries, all listed, in non-increasing points, and is a prefix of the stable sort; `pointsMined` sums all listed users' points; `totalMiners` counts them |
| ServerMjs.LeaderboardIsTopFive | server.mjs:122-123 | a listed user left off the leaderboard has no more points than anyone on it |
| ServerMjs.LeaderboardTiesInLedgerOrder | server.mjs:122-123 | users with equal points appear in ledger order, the first ones with that score |
| ServerMjs.RestartKeepsStats | server.mjs:19-23 | a restart right after a save serves the same stats |
| ServerMjs.Apply | server.mjs:37-115 | every handler keeps the ledger well formed |
| ServerMjs.Replay | server.mjs:37-115 | any sequence of handled events keeps the ledger well formed |
| ServerMjs.ApplyAddsWeight | server.mjs:43-112 | each event adds exactly its weight to the ledger's total points: the like count, 1000 per gift repeat, 100 per comment, 300 per share |
| ServerMjs.ReplayAddsWeights | server.mjs:43-112 | points are never lost: after a stream of events the total is the start total plus every event's weight |
| ServerMjs.DuplicateCountsTwice | server.mjs:37-115 | the handlers do not deduplicate: an event delivered twice adds its weight twice |
| ServerMjs.ApplyGrows | server.mjs:43-112 | with non-negative multipliers no handler removes a user or lowers any counter |
| ServerMjs.ReplayGrows | server.mjs:43-112 | over a stream with non-negative multipliers, users are kept and no counter of any user decreases |
| ServerMjs.NegativeLikeLowers | server.mjs:43-51 | a negative `likeCount` is passed through and lowers the user's likes and points |
| ServerJs.UserKey | server.js:34 | the record key is the event's `userId`, or `"undefined"` when it has none |
| ServerJs.Avatar | server.js:36 | the avatar is `profilePictureUrl` when present and non-empty, `""` otherwise |
| ServerJs.LikeCount | server.js:37 | the like count is never 0: `likeCount` when present and non-zero, 1 when it is missing or 0 |
| ServerJs.AfterLike | server.js:33-47 | likes rise by `likeCount`, or 1 when absent or 0; nickname (`uniqueId`, else `nickname`, else `'Anonymous'`) and avatar (`profilePictureUrl`, else `''`) are overwritten; a new user starts from likes 0; nothing else changes |
| ServerJs.Server.constructor | server.js:17-20 | the server starts with the ledger loaded from `data.json` |
| ServerJs.Server.SaveDb | server.js:21 | the file afterwards holds the whole current ledger |
| ServerJs.Server.OnLike | server.js:33-47 | the in-place update yields `AfterLike` of the old ledger and is saved |
| ServerJs.GetStats | server.js:50-57 | the leaderboard is a prefix of the stable likes-sort of all users, of length min(5, users), in non-increasing likes; `totalLikes` sums all users' likes; `totalMiners` counts all users |
| ServerJs.EntriesAreStored | server.js:51 | every entry is a stored user with its own record |
| ServerJs.LeaderboardIsTopFive | server.js:52-53 | a user left off the leaderboard has no more likes than anyone on it |
| ServerJs.LeaderboardTiesInLedgerOrder | server.js:52-53 | users with equal likes appear in ledger order |
| ServerJs.LikeRaisesTotals | server.js:33-55 | a like raises `totalLikes` by exactly its like count, and `totalMiners` by one exactly when the user is new |
| ServerJs.RestartKeepsStats | server.js:17-21 | a restart right after a save serves the same stats |
| Dashboard.Normalize | dashboard/script.js:4-6 | blank input stops the handler; otherwise the name is the trimmed input with exactly one `@` in front unless it already starts with one |
| Dashboard.StripLeadingAt | dashboard/script.js:18 | `replace(/^@/, '')` removes one leading `@` and nothing else |
| Dashboard.SearchKey | dashboard/script.js:18 | the key is the name lower-cased character by character, without its first character when that is `@` |
| Dashboard.NickKey | dashboard/script.js:21 | a user's key is empty exactly when the nickname is missing or empty, and is otherwise the nickname lower-cased character by character |
| Dashboard.FirstMatch | dashboard/script.js:20-25 | a found position lies between the starting position and the end of the key order |
| Dashboard.FirstMatchIsFirst | dashboard/script.js:19-26 | the search finds a match exactly when one exists, and no earlier key matches |
| Dashboard.LookupFindsFirst | dashboard/script.js:19-26 | the lookup returns nothing exactly when no lower-cased nickname equals the key, and otherwise the first user in key order whose nickname does |
| Dashboard.Lookup | dashboard/script.js:19-26 | a user found is one of the ledger's records, and its nickname key equals the search key |
| Dashboard.Check | dashboard/script.js:4-31 | blank input does nothing; otherwise a failed fetch is an error; a found user is a ledger record whose nickname key equals the search key of the normalised name; not found reports the normalised name |
| Dashboard.Search | dashboard/script.js:19-26 | the `for...in` loop with `break` returns what `Lookup` specifies |
| Dashboard.CheckFindsFirst | dashboard/script.js:18-30 | for a non-blank name and a fetched ledger, the handler reports not found exactly when no user's lower-cased nickname equals the search key, and otherwise finds the first such user in key order |
| Dashboard.Submit | dashboard/script.js:4-31 | the submit handler produces what `Check` specifies (with `CheckFindsFirst`): nothing for blank input, a fetch failure, the first matching user, or not found |
| Dashboard.AtPrefixedIsNormal | dashboard/script.js:4-6 | a trimmed name without an `@` gets exactly one, and that name is left as it is |
| Dashboard.NormalizeIdempotent | dashboard/script.js:6 | normalising an already normalised name changes nothing |
| Dashboard.SearchKeyDropsOneAt | dashboard/script.js:18 | the key is the lower-cased name without exactly its first `@`; typing a name with or without its `@` gives the same lookup |
| Dashboard.AtSignSearchesEmpty | dashboard/script.js:4-30 | the input `@` searches for the empty key and reports `@` when nothing matches |
| Dashboard.NamelessUserMatchesAtSign | dashboard/script.js:21 | the input `@` finds the first user whose nickname is missing or empty |

## Left out

- `orb.js` is not part of this model: it is WebGL rendering, animation and DOM output.
- Express routing, static files, `/db`, `app.listen` and the TikTok connection are left out. Events enter the model as datatypes holding the fields the handlers read.
- `fs` and `JSON` are library calls. `data.json` is modelled as missing, unparsable or parsed. A parsed document is assumed to have the shape `{ users: {...} }` with records whose fields have the types the servers write. A failing `writeFileSync` is not modelled.
- `console.log` text is left out. The throttle returns whether it would log, and the other handlers' log lines are not modelled.
- `Date.now()` is a parameter `now`.
- The dashboard's `fetch`, DOM reads and `innerHTML` are left out. A failed fetch or parse is one `FetchFailed` result, and the result text is reduced to the found record or the name.
- JavaScript numbers are modelled as unbounded integers. Floating point, `NaN` (an absent `likes` plus a count) and precision loss above 2^53 are not modelled.
- A numeric `userId` (including `0`, which `|| 'undefined'` replaces) is modelled as its string form.
- Integer-like keys, which `Object.entries` and `for...in` visit first in ascending order, are not modelled. All keys are visited in insertion order.
- Ids that name inherited `Object.prototype` properties (`constructor`, `toString`, `__proto__`, ...) are not modelled. The handlers' `!db.users[userId]` would find those inherited properties; the model treats every id as an own key of `db.users`.
- A record field named `userId` overriding the key in `{ userId, ...u }` is not modelled.
- JsText.ToLower: lower-cases ASCII letters only, because full Unicode case mapping is out of scope.
- Each handler builds the user's record in a local value and writes it back once. The source updates the stored object field by field, which gives the same final ledger since nothing runs in between.
- Events of other kinds have no handler in the source and are not modelled.
