# agilekarma in Dafny

agilekarma is a Slack bot for karma votes. A message `@user ++` gives that user a point in
the channel and `@user --` is accepted but changes nothing. `@bot undo` takes back the
sender's newest vote of the last five minutes. A user who votes for themselves gets a
telling-off instead of a point. Each user may cast at most 300 votes a day.

The bot answers with a random message from weighted sets. It keeps an in-memory ledger of
who voted for whom last, so that `undo` can name the recipient. Votes, users and channels
live in three tables; the leaderboard, the karma feed and the user profile are queries over
them. An HTTP front door checks the verification token of Slack's POST requests and routes
the JSON GET endpoints.

The model covers the parts that decide what happens:

- parsing a message's directive (`<@U…> ++ description`);
- the daily limit;
- voting, recording the ledger and undoing;
- the choice and filling of the reply message;
- the leaderboard with ranks shared by ties;
- the karma feed and `getAll` with their pagination;
- the profile's karma-divided table and activity chart;
- the event and HTTP routing.

## Module layout

- `wrappers.dfy` — `Option` and `Result`.
- `text.dfy` — the JavaScript string operations the source relies on:
  - `indexOf` and first-occurrence `replace`;
  - `trim`, `toLowerCase` and the upper-casing of the first character;
  - `split`/`join` on one character, and number printing.
- `queries.dfy` — SQL semantics on sequences:
  - `WHERE` as `Select`;
  - `ORDER BY … DESC` as a stable sort (`SortDesc`);
  - `LIMIT … OFFSET` as `Paginate`;
  - the "count per key in first-seen order" idiom of the profile.
- `helpers.ts` → `helpers.dfy`, `operations.ts` → `operations.dfy`,
  `messages.ts` → `messages.dfy`, `points.ts` → `points.dfy`,
  `leaderboard.ts` → `leaderboard.dfy` and (the profile half) `profile.dfy`,
  `events.ts` → `events.dfy`, `app.ts` → `app.dfy`.
- `src/points.js` → `points_legacy.dfy`. It is the older JavaScript store. It matches
  `src/points.ts` in every operation the model covers except the daily vote count, so only
  that difference is modelled.

The three tables are a `class Store` whose methods update them in place; the ledger
`usersList` is a field of `class Bot`. Everything else is a function over values.

Kept quirks of the source:

- `rankItems`'s skip test (src/leaderboard.ts:61) has a clause `!isUser && 'users' === itemType`
  that tests the function object `isUser` without calling it. A function object is truthy,
  so that clause is always false. As a result, every row survives for `itemType == "users"`,
  and every row that names a user is skipped otherwise.
- `getLast` ignores the recipient, so `undo` removes the voter's newest vote to anyone.
- `appMention` returns `false` when no command occurs, because `if ('++')` is always true, so
  its default reply is never sent.
- `undo` is only honoured when it is addressed to a bot.

## Model

| member | source | states |
|---|---|---|
| Text.IndexOf | src/helpers.ts:30 | -1 exactly when the needle occurs nowhere; otherwise the leftmost position where it occurs |
| Text.ReplaceAfter | src/messages.ts:130-133 | `replace` with a string pattern rewrites only the first occurrence: when the prefix holds no occurrence, the pattern after it is the one replaced |
| Text.ReplaceAbsent | src/messages.ts:130-133 | replacing a pattern that occurs nowhere (`indexOf` gives -1) leaves the string as it was |
| Text.PairAbsent | src/messages.ts:130-133 | a string in which the pattern's first two characters never stand side by side holds no occurrence of the pattern |
| Text.TrimEmpty | src/app.ts:38 | `trim()` is empty exactly when every character is white space |
| Text.RemoveChar | src/points.ts:557 | `split(c).join('')` removes every `c` and keeps every other character as often as it occurs; the result is shorter by the number of `c`s |
| Text.RemoveCharConcat | src/points.ts:557 | removing a character distributes over concatenation |
| Text.RemoveCharOne | src/points.ts:557 | a one-character string loses its character exactly when it is the removed one |
| Text.ToLower | src/points.ts:557 | lower-casing keeps the length and maps each character on its own |
| Text.UpperFirst | src/leaderboard.ts:72 | only the first character is upper-cased; the rest is unchanged |
| Text.Split | src/points.ts:181 | `split` on one character gives at least one piece; no piece holds the separator |
| Text.JoinSplit | src/points.ts:181 | joining the pieces of a split with the separator gives back the original string |
| Text.SplitJoin | src/leaderboard.ts:195 | splitting a join of separator-free lines gives back the lines |
| Queries.SelectMembers | src/points.ts:196-207 | a row is in the result of `WHERE p` exactly when it is in the table and satisfies `p` |
| Queries.SelectConcat | src/points.ts:196-207 | `WHERE` distributes over concatenating tables |
| Queries.SelectCounts | src/points.ts:473-497 | counts by inclusion-exclusion: the rows matching either condition plus those matching both equal the rows matching the first plus those matching the second |
| Queries.SelectDropsOne | src/points.ts:651 | a `DELETE … WHERE id = ?` of a unique id removes exactly the row at its position |
| Queries.Paginate | src/points.ts:306-312 | `LIMIT n OFFSET o` fails exactly on a negative value; otherwise it returns the `min(n, len - o)` rows that start at `o`, in order |
| Queries.PagesCover | src/points.ts:312 | row `i` of the full result is row `i % n` of page `i / n + 1` |
| Queries.SortDesc | src/points.ts:198 | `ORDER BY … DESC` gives a descending permutation of its input |
| Queries.SelectSorted | src/points.ts:515-522 | `WHERE p ORDER BY key DESC` gives a descending permutation of the matching rows |
| Queries.Firsts | src/leaderboard.ts:347-349 | the distinct keys: no duplicate, nothing missing, nothing extra (their order is `FirstsOrder`) |
| Queries.FirstsOrder | src/leaderboard.ts:347-349 | the distinct keys are listed in the order of their first appearance |
| Queries.CountBy | src/leaderboard.ts:347-349 | `count[key] = (count[key] \|\| 0) + 1` over a list yields exactly its multiplicities, with the keys listed as `Firsts` lists them |
| Queries.CountOne | src/leaderboard.ts:348 | one counting step keeps the counts equal to the multiplicities seen so far |
| Helpers.ExtractCommand | src/helpers.ts:24-39 | `false` (`None`) when no listed command occurs in the message, or when the first one found is empty; otherwise the command with the earliest occurrence, the earlier-listed one on a tie |
| Helpers.ScanOne | src/helpers.ts:29-35 | one pass of the loop keeps the earliest occurrence so far and the command that first reached it |
| Helpers.ScanDone | src/helpers.ts:26-37 | after the loop the kept command is the unique earliest one (or there is none) |
| Helpers.Run | src/helpers.ts:55 | a greedy character-class run: the longest prefix whose characters all satisfy the class |
| Helpers.FirstUserIdFrom | src/helpers.ts:45 | the first position at or after `from` where a user id `U[A-Z0-9]+` starts, or -1 when there is none |
| Helpers.IsUser | src/helpers.ts:136-138 | true exactly when a user id occurs somewhere in the string |
| Helpers.ExtractUserID | src/helpers.ts:44-47 | empty exactly when the text holds no user id; otherwise the leftmost, longest `U[A-Z0-9]+` |
| Helpers.OperatorPrefix | src/helpers.ts:55 | the operator alternation `++`, `--`, em dash, `undo`, tried in that order |
| Helpers.MatchHere | src/helpers.ts:55 | a match starting at this position begins with `<@` and gives an alphanumeric item, an operator and an optional description |
| Helpers.MatchId | src/helpers.ts:55 | the `[A-Za-z0-9]+` item followed by one or more `>` (`>+`), both read greedily |
| Helpers.MatchOperator | src/helpers.ts:55 | white space, then an operator, then the optional description group |
| Helpers.Description | src/helpers.ts:55 | the description group is absent or is a non-empty rest of the line with no leading white space |
| Helpers.FirstMatch | src/helpers.ts:55 | the leftmost match of the directive regex |
| Helpers.ExtractPlusMinusEventData | src/helpers.ts:53-76 | a result always has a user-id item, an operation of `+`, `-` or `undo`, and a description that passes the description group's shape |
| Helpers.NoMentionNoDirective | src/helpers.ts:56-62 | a text without a `<@` mention is not a vote |
| Helpers.SkipPrefix | src/helpers.ts:55 | a prefix without `<` never changes the match |
| Helpers.ComposedDirective | src/helpers.ts:53-76 | round trip: a mention built from an item, `>`s, white space, an operator and a description parses back to exactly that item, the operator's name (`++` → `+`, `--` and em dash → `-`) and the description |
| Helpers.SingleSignIsNotAVote | src/helpers.ts:55-62 | a mention followed by a single `+` or `-` is not a vote |
| Helpers.IsPlural | src/helpers.ts:103-105 | plural exactly when the number is neither 1 nor -1 |
| Helpers.MaybeLinkItem | src/helpers.ts:148-150 | a user id is wrapped as `<@id>`; anything else is left as it is |
| Helpers.LinkedUserVote | src/helpers.ts:148-150 | round trip: the link of a user id followed by `++` parses back to a `+` vote for that id |
| Helpers.IsTimeBasedTokenStillValid | src/helpers.ts:111-131 | throws exactly when the timestamp is 0 and the clock is still within the first TTL; otherwise valid exactly when the token is the hash of the timestamp and the clock lies within the TTL after it |
| Operations.GetOperationName | src/operations.ts:16-26 | `+` gives `plus`, `-` gives `minus`, anything else gives `''`, each in both directions; never `selfPlus` |
| Messages.TablesWellFormed | src/messages.ts:16-78 | each operation's sets are non-empty and weigh 100 + 1 = 101 in total |
| Messages.CumulativeStep | src/messages.ts:110-117 | the running weight grows by each set's probability |
| Messages.SetIndexFor | src/messages.ts:107-117 | for a non-negative draw, a set is found exactly when the draw is below the total; the set found is the one whose cumulative weight range holds the draw |
| Messages.ChooseSet | src/messages.ts:107-117 | the loop picks the set `SetIndexFor` names, or none, leaving the draw minus the total |
| Messages.SumProbabilities | src/messages.ts:102-105 | the loop sums the sets' probabilities |
| Messages.SetDraw | src/messages.ts:108 | `floor(random * total)` lies in `[0, total)` |
| Messages.ShiftyDraw | src/messages.ts:110-117 | for `plus`, draw 99 still picks the main set and draw 100 picks `:shifty:` |
| Messages.MessageIndex | src/messages.ts:125-128 | `floor(random * (len - 1))` is a valid index; it is 0 for one message, and the last message is never chosen when there are two or more |
| Messages.EarlierMessagesReachable | src/messages.ts:126-127 | every message except the last is chosen by some draw |
| Messages.DrawnMessage | src/messages.ts:107-128 | the drawn message belongs to one of the operation's sets |
| Messages.FillInOrder | src/messages.ts:130-133 | the four `replace` calls fill the item, score, plural and message tags in the template |
| Messages.VoteReplyShape | src/messages.ts:130-133 | for an item without `<`, a vote reply reads `message *item* is now on N point(s)` |
| Messages.SelfReplyShape | src/messages.ts:130-133 | for an item without `<`, a self-vote reply reads `item message` |
| Messages.GetRandomMessage | src/messages.ts:83-137 | fails with `Invalid operation: op` exactly when the operation is unknown; otherwise the template filled with the drawn message, in the two shapes above |
| Points.UserScoreAppend | src/points.ts:151-168 | a new vote raises exactly its recipient's count in its channel |
| Points.UserScoreRemoveAt | src/points.ts:151-168 | removing a vote lowers exactly its recipient's count in its channel |
| Points.Last | src/points.ts:624-643 | the voter's newest vote in the channel at or after the cutoff, or none exactly when there is no such vote |
| Points.RemoveUnique | src/points.ts:648-666 | deleting by a unique id removes exactly that row |
| Points.RemoveAbsent | src/points.ts:651 | deleting an id that does not occur changes nothing |
| Points.VoteThenUndo | src/points.ts:66-90 | right after a vote, undo finds that vote and removing it restores the table |
| Points.LimitCheck | src/points.ts:346-365 | voting is allowed exactly when the day's votes are below the limit; otherwise the limit message is returned |
| Points.DailyLimitReached | src/points.ts:671-691 | a vote counts toward its voter's day, and once the day's votes reach the limit voting is refused |
| Points.SingleChannelScope | src/points.ts:181 | for a channel id without a comma, the scope is just that channel |
| Points.Recipients | src/points.ts:198 | `GROUP BY to_user_id`: each recipient once, every recipient present, nothing else |
| Points.Tally | src/points.ts:198 | each group's `COUNT` is the number of votes its recipient received, and is positive |
| Points.TallyCovers | src/points.ts:198 | every vote's recipient has a group |
| Points.GetAllScores | src/points.ts:173-222 | the leaderboard totals: sorted descending, one row per recipient, each the recipient's received votes in the channel scope and date window |
| Points.GetAllScoresCovers | src/points.ts:173-222 | every vote in scope has its recipient on the board |
| Points.AllScoresSum | src/points.ts:196-207 | the board's totals sum to the number of votes in scope |
| Points.FindUser | src/points.ts:396-415 | the user row with that id, or none exactly when there is none |
| Points.FindChannel | src/points.ts:578-596 | the channel row with that id, or none exactly when there is none |
| Points.JoinRow | src/points.ts:306-310 | the inner join of a vote with its two users and its channel; a row exists exactly when both users and the channel exist, and it keeps the vote's time and description |
| Points.Rows | src/points.ts:306-311 | the joined feed keeps one row per matching vote, in order |
| Points.RowsNewestFirst | src/points.ts:312 | the feed is ordered newest first |
| Points.GetKarmaFeed | src/points.ts:262-340 | fails exactly on a negative limit or offset; otherwise the count is all matches and the page's k-th row is match `(page-1)*n + k` |
| Points.FeedPagesCover | src/points.ts:306-312 | every match appears on the page its position says |
| Points.GetUserId | src/points.ts:443-461 | the id of a user with that handle, or none exactly when no user has it |
| Points.GetName | src/points.ts:420-438 | a name is found exactly when the handle is known |
| Points.GetAll | src/points.ts:463-549 | an unknown handle is an error. Pagination applies only when both the page size and the page are non-zero, and fails on a negative offset. The count ignores pagination, and each row is the matching vote at its position, newest first |
| Points.EitherDirectionCount | src/points.ts:473-497 | votes counted in either direction plus self-votes equal votes received plus votes given |
| Points.Handle | src/points.ts:557 | the handle has no space and no upper-case letter, and is exactly as much shorter than the name as the name has spaces |
| Points.HandleConcat | src/points.ts:557 | a handle is built character by character: a space is dropped and any other character is lower-cased, so the handle of a concatenation is the concatenation of the handles |
| Points.ToLowerConcat | src/points.ts:557 | lower-casing distributes over concatenation |
| Points.HandleIdempotent | src/points.ts:557 | deriving a handle from a handle changes nothing |
| Points.WithUser | src/points.ts:109-125 | the user table after `checkUser`: the id is present; the table is unchanged exactly when it was already present, and otherwise gains one row at the end |
| Points.WithChannel | src/points.ts:130-146 | the channel table after `checkChannel`: the id is present; the table is unchanged exactly when it was already present, and otherwise gains one row at the end |
| Points.RemoveKeepsIds | src/points.ts:648-666 | deleting keeps the ids unique and below the next id |
| Points.Store.constructor | src/database-setup.ts:22-24 | the three tables start empty |
| Points.Store.InsertScore | src/points.ts:370-391 | appends exactly one vote with a fresh id, advances the id counter by one, and leaves users and channels alone |
| Points.Store.RemoveLast | src/points.ts:648-666 | deletes exactly the row with that id |
| Points.Store.UpdateScore | src/points.ts:48-61 | inserts the vote, advances the id counter, and returns the recipient's new count, one more than before |
| Points.Store.UndoScore | src/points.ts:66-90 | with no newest vote in the window nothing changes and nothing is returned; otherwise exactly that row is deleted, whoever received it, and `to`'s count is returned; users, channels and the id counter never change |
| Points.Store.InsertUser | src/points.ts:554-573 | adds the user with its handle exactly when the id is new |
| Points.Store.CheckUser | src/points.ts:109-125 | the user table becomes `WithUser` of the old one: a missing user is added with its name and handle, an existing one leaves the table as it was; the returned id is the user's; scores and channels are untouched |
| Points.Store.InsertChannel | src/points.ts:601-619 | adds the channel exactly when the id is new |
| Points.Store.CheckChannel | src/points.ts:130-146 | the channel table becomes `WithChannel` of the old one: a missing channel is added with its name, an existing one leaves the table as it was; users and scores are untouched |
| PointsLegacy.DayOfEra | src/points.js:836-838 | the civil calendar's day of the 400-year era lies in `[0, 146097)` |
| PointsLegacy.DayInMonth | src/points.js:838 | the day of the month lies in 1..31 |
| PointsLegacy.LegacyCountsAtLeast | src/points.js:445-466 | the legacy daily count is never below the new one, so the legacy store allows a vote only when the new one does |
| PointsLegacy.FirstOfTwoMonths | src/points.js:836-838 | 1 January and 1 February 1970 share the day of the month |
| PointsLegacy.LegacyCountsLastMonth | src/points.js:833-839 | a vote from a month ago counts toward today's limit in the legacy store and not in the new one |
| Leaderboard.PointsText | src/leaderboard.ts:73 | `N point` gets its `s` exactly when N is not 1 |
| Leaderboard.UsersKeepsAll | src/leaderboard.ts:61-63 | for `users` no row is skipped |
| Leaderboard.KeptNext | src/leaderboard.ts:58-63 | a row is skipped exactly when the item is a user and the item type is not `users` |
| Leaderboard.RunStart | src/leaderboard.ts:77 | the first position of a run of equal scores lies at or before the row |
| Leaderboard.RankShape | src/leaderboard.ts:77 | ranks start at 1 and never fall; a tie shares the previous rank; a lower score takes its position plus one |
| Leaderboard.RunStartPrefix | src/leaderboard.ts:77 | a rank depends only on the rows above it |
| Leaderboard.RankCountsHigher | src/leaderboard.ts:43-48 | a row's rank is one plus the number of rows scoring strictly higher |
| Leaderboard.LinkedIsMaybeLinkItem | src/leaderboard.ts:66-69 | the board links items as `maybeLinkItem` does |
| Leaderboard.RowForShape | src/leaderboard.ts:66-101 | a row keeps its total's rank and score; a Slack line has a medal exactly when it is the first row (`:muscle:` for a user) and shows a user's mention unchanged by capitalisation; a web entry keeps the raw item as `item_id` and shows the capitalised name or item |
| Leaderboard.SlackRowNameFree | src/leaderboard.ts:66-69 | a Slack row never looks up a name, so the name function passed for Slack rankings does not matter |
| Leaderboard.Ranks | src/leaderboard.ts:77 | one rank per row |
| Leaderboard.RanksAgree | src/leaderboard.ts:77 | the list of ranks agrees with the closed form |
| Leaderboard.RankedRowsAt | src/leaderboard.ts:54-110 | the k-th emitted row is the row for the k-th kept item at its rank |
| Leaderboard.RankedRowsRanks | src/leaderboard.ts:54-110 | the k-th emitted row carries the k-th rank of the list |
| Leaderboard.MedalOnlyFirst | src/leaderboard.ts:86-89 | on a Slack board only the first row carries a medal |
| Leaderboard.Emit | src/leaderboard.ts:77-106 | one pass of the loop appends the next row and updates the last score and rank |
| Leaderboard.RankItems | src/leaderboard.ts:49-112 | emits one ranked row per kept item, in order (corrected: output starts from an empty list) |
| Leaderboard.RankItemsAsWritten | src/leaderboard.ts:49-77 | as written, reading `items.length` on the uninitialised list throws exactly when some row is kept; otherwise the result is `undefined` |
| Leaderboard.RankItemsAsWrittenThrows | src/leaderboard.ts:52-77 | as written, a one-row user board already throws |
| Leaderboard.RankItemsUsers | src/leaderboard.ts:54-110 | for users, one row per total and the first row ranks 1 |
| Leaderboard.Shown | src/leaderboard.ts:157-195 | the Slack board shows `min(n, 5)` lines |
| Leaderboard.Board | src/leaderboard.ts:164-211 | the attachment is `danger` exactly when there are no rows, with the no-users text; otherwise `good` with two fields |
| Leaderboard.BoardShowsTopFive | src/leaderboard.ts:187-210 | the first field's lines are exactly the first five rows |
| Leaderboard.TotalsIffVotes | src/points.ts:196-207 | the board is empty exactly when no vote is in scope |
| Leaderboard.GetForSlack | src/leaderboard.ts:154-219 | the rows are the ranked totals of the channel from the epoch to now; the message is `danger` exactly when no vote is in scope |
| Leaderboard.LastRankOfMeans | src/leaderboard.ts:331-336 | the rank loop gives 0 when the user has no entry, else the rank of the user's last entry |
| Leaderboard.UserRank | src/leaderboard.ts:331-336 | the loop computes the rank of the user's last entry |
| Leaderboard.ProfileRankIs | src/leaderboard.ts:327-336 | a user's rank is 0 when the totals do not name them; otherwise it is their rank on the board |
| Leaderboard.NullWindowEmpty | src/leaderboard.ts:327 | with `null` dates the window runs from epoch to epoch, so the board is empty |
| Leaderboard.NullWindowRankZero | src/leaderboard.ts:327-336 | with `rankItems` corrected, the `null` window gives every profile rank 0 (as written the request fails earlier; see Findings) |
| Leaderboard.RankedItemFound | src/leaderboard.ts:331-336 | an item on the board has a rank of at least 1 |
| Leaderboard.ProfileScopeHas | src/points.ts:187-207 | in the leaderboard's default window, from the epoch to now, a vote in the channel scope is in scope |
| Leaderboard.RecipientHasTotal | src/points.ts:173-222 | its recipient then has a total on the board |
| Leaderboard.ProfileWindowRanks | src/leaderboard.ts:327-336 | corrected: a user who received a vote in the channel between the epoch and now has a rank of at least 1 |
| Profile.SumTallied | src/leaderboard.ts:347-349 | the counted values sum to the multiplicities of the listed names |
| Profile.DividedMeans | src/leaderboard.ts:347-349 | karma divided lists each voter once, in `Firsts` order, with the number of votes they gave; the values sum to the votes received |
| Profile.DividedDistinct | src/leaderboard.ts:347-349 | no voter appears twice |
| Profile.DividedCovers | src/leaderboard.ts:347-349 | every voter appears |
| Profile.DividedValues | src/leaderboard.ts:347-349 | each value is that voter's count |
| Profile.DividedSum | src/leaderboard.ts:347-349 | the values sum to the number of votes |
| Profile.KarmaDivided | src/leaderboard.ts:347-349 | the loop computes karma divided |
| Profile.SumFieldCounts | src/leaderboard.ts:351-380 | a chart's field sums to the number of days it counted |
| Profile.ActivityTotals | src/leaderboard.ts:351-380 | the chart's received and sent columns sum to the votes received and given |
| Profile.FieldTotalConcat | src/leaderboard.ts:362 | per-day totals add over concatenated charts |
| Profile.ChartFacts | src/leaderboard.ts:352-359 | the per-direction chart has one entry per distinct day with that day's count |
| Profile.Chart | src/leaderboard.ts:352-359 | `countIn`/`countOut` count the votes of each day |
| Profile.CombinedBump | src/leaderboard.ts:370-375 | a known date adds the entry into its row |
| Profile.CombinedNew | src/leaderboard.ts:368-376 | a new date appends a row |
| Profile.CombineOne | src/leaderboard.ts:368-377 | one step of the combine loop keeps each row equal to the totals per date seen so far |
| Profile.CombineDates | src/leaderboard.ts:364-377 | the combined chart has one row per date with the summed received and sent counts, and covers every date |
| Profile.ConcatFacts | src/leaderboard.ts:362 | the concatenated charts hold each day's counts split by direction |
| Profile.CombineActivity | src/leaderboard.ts:351-380 | the activity chart has one row per day with a vote, in ascending date order, with the day's received and given counts |
| Profile.SortedChart | src/leaderboard.ts:380 | sorting the combined chart keeps it the activity chart |
| Profile.ChartAscending | src/leaderboard.ts:380 | the dates run strictly ascending |
| Profile.ChartEntryCounts | src/leaderboard.ts:365-380 | every row counts the day's votes and is non-zero |
| Profile.DateReachesActivity | src/leaderboard.ts:365-380 | every day with a vote has a row |
| Profile.UnpagedFeed | src/points.ts:504-506 | without pagination `getAll` returns every matching row |
| Profile.GetUserProfile | src/leaderboard.ts:316-390 | fails on a missing channel and on an unknown user. Otherwise returns the feed page, the name, the received and given counts, the rank on the channel's board from the epoch to now, karma divided and the activity chart; both charts sum to those counts |
| Events.Answer | src/events.ts:59 | the reply is the random message for the operation, item and score |
| Events.FindVoter | src/events.ts:50-52 | the ledger position of the voter's entry, or none exactly when the voter has none |
| Events.SpliceKeepsOnePerVoter | src/events.ts:53 | splicing out an entry keeps one entry per voter |
| Events.SpliceEntries | src/events.ts:53 | splicing removes exactly the one entry at its position |
| Events.SpliceKeepsOthers | src/events.ts:53 | splicing keeps every other voter's entry |
| Events.SpliceRemovesVoter | src/events.ts:53 | splicing removes the voter's only entry |
| Events.WithoutVoterMeans | src/events.ts:95-98 | dropping a voter removes their entry and keeps everyone else's |
| Events.RecordMeans | src/events.ts:50-58 | recording a vote leaves exactly one entry for the voter, naming the new recipient, and keeps the rest |
| Events.RouteEvent | src/events.ts:250-283 | the guards of `handleEvent` in order: missing type, then subtype, then empty text, then no handler; otherwise the camel-cased type picks the handler |
| Events.RouteMessage | src/events.ts:177-209 | no directive is ignored. `undo` to a bot undoes, and anything else to a bot is ignored. `++` to oneself is refused. Every other directive is exactly the parsed vote |
| Events.VoteRoutes | src/events.ts:177-209 | round trip: a linked `++` for a user routes to a `+` vote for that user, unless the user is a bot (ignored) or the sender (refused) |
| Events.UndoRoutes | src/events.ts:177-198 | `<@bot> undo` addressed to a bot routes to the undo action |
| Events.AppCommandsHandled | src/events.ts:217-223 | every mention command has a handler |
| Events.AppMention | src/events.ts:215-243 | no command exactly when no listed command occurs; otherwise the handler of the earliest command |
| Events.Bot.constructor | src/events.ts:34 | the ledger starts empty |
| Events.Bot.StoreVote | src/events.ts:44-47 | the user table gains the recipient and then the voter if missing, the channel table the channel if missing, each under its Slack name; the vote is the one new row and the recipient's new count, one more, is returned |
| Events.Bot.ProcessUserData | src/events.ts:43-61 | stores the vote with the tables as `StoreVote` states, leaves the voter one ledger entry naming the recipient, and returns the reply for the operation's name with the new count |
| Events.Bot.HandlePlusMinus | src/events.ts:67-87 | `+` under the daily limit stores the vote, records the ledger and answers with the new count; `+` over it answers with the limit message and changes nothing; `-` changes nothing and says nothing |
| Events.Bot.UndoPlus | src/events.ts:92-121 | without a ledger entry, says there is nothing to undo and changes nothing. Otherwise drops the entry, then removes the newest vote in the window and names the recipient's new count, or says the time has passed. Users, channels and the id counter never change |
| Events.Bot.UndoVoteOf | src/events.ts:100-108 | removes the voter's newest vote in the window and answers with the target's count, or reports the window expired; users, channels and the id counter never change |
| Events.Bot.OnMessage | src/events.ts:177-209 | for each routed action, the reply and the new ledger and tables: ignore and self-vote change nothing, undo as `UndoPlus`, and a vote as `HandlePlusMinus` (limit check, new row, ledger entry, reply or limit message) |
| Events.Bot.HandleEvent | src/events.ts:250-283 | the route is `RouteEvent`; a dropped or unhandled event changes nothing; a message has the outcome `OnMessage` states; a mention changes no state and yields the handler of the earliest listed command, or none exactly when no command occurs |
| App.ValidateToken | src/app.ts:36-57 | a blank or placeholder server token always gives 500; otherwise a mismatch gives 403; accepted exactly when the server token is sane and matches |
| App.AcceptedTokenIsSane | src/app.ts:38-56 | an accepted request had a non-blank, non-placeholder token equal to the server's |
| App.HandlePost | src/app.ts:110-145 | a challenge is echoed with 200; a refused token answers with its status; otherwise 200 with an empty body, and the event is dispatched unless it is a retry |
| App.NormalisePath | src/app.ts:66 | one trailing slash is removed, nothing else |
| App.TrailingSlashIgnored | src/app.ts:66 | a path with one trailing slash is served as the path without it |
| App.OnlyOneSlash | src/app.ts:66-103 | two trailing slashes fall through to the default answer |
| App.RouteOf | src/app.ts:70-103 | the default answer exactly when the path is none of the five routes |
| App.HandleGet | src/app.ts:63-105 | `It works` exactly on the default route; every route, with or without one trailing slash, serves its page |

## Left out

- Dates: `moment` and the SQL date functions are replaced by integer seconds on one clock,
  and a day is `timestamp / 86400` on that clock. The source counts days on two clocks: the
  daily limit uses MySQL `DATE()` in the server's time zone, the activity chart uses
  `toISOString()` in UTC. The model's day is both, which matches the source only on a server
  that runs in UTC.
- The start of the current month, the karma feed's default start, is a `monthStart`
  parameter.
- Randomness: `Math.random()` draws are `real` parameters in `[0, 1)`.
- Clock: the current time is an `int` parameter.
- `LIKE '%search%'`: this is the abstract `NameMatch` parameter.
- Case: `toLocaleLowerCase` and `toUpperCase` are ASCII-only.
- Text.UpperFirst, Text.IndexOf: JavaScript strings are UTF-16 code units, so `substring(0, 1)`
  can split a surrogate pair and `indexOf` counts code units. A Dafny `char` is a whole
  Unicode scalar value, so characters outside the Basic Multilingual Plane are not modelled
  unit by unit.
- Vote ids: `uuid` is replaced by a counter `nextId`.
- SQL: query text, parameter escaping, connections and `db.end` are left out.
- Error paths of the source: the `async`/`Promise` sequencing, logging, the `setImmediate` rethrow
  of database errors — the model has no database failures.
- Slack: the Web API calls (`sendEphemeral`, `getUserName`, `getChannelName`, `isBot`) are
  parameters or returned values. `camelCase` is a parameter.
- The `undefined` verification token: `SLACK_VERIFICATION_TOKEN` is a `string`, so the
  `new Error` on an undefined token is not modelled.
- Environment limits: an unset environment limit is not modelled. The defaults of
  `config.ts` (300 votes, 300 seconds) are the constants.
- `getNewScore`, `getUser`, `getChannel`, `getAllChannels`, `getForWeb`, `getForChannels`,
  `userScores` and `getAllScoresFromUser` are left out. They are thin wrappers or the
  same queries as modelled members. `getUser`/`getChannel` are `FindUser`/`FindChannel`.
- URL builders, `getTimeBasedToken`'s hashing, `render`, `sendHelp` and `sayThankyou` are
  left out. They produce presentation text only. A token's hash is a function parameter
  of `IsTimeBasedTokenStillValid`.
- `handleSelfPlus` is modelled as the `SelfPlus` reply of `OnMessage`.
- Events.AppMention: returns the handler to run instead of running it; `None` stands for the
  source's `return false`.
- Queries.SortDesc: `ORDER BY` ties are resolved stably. MySQL leaves the order of equal
  keys unspecified.
- Points.Last, Points.VoteThenUndo: of several votes with the newest timestamp, `Last` takes
  the one inserted last. MySQL leaves that choice to the server, and timestamps keep whole
  seconds only. So when the voter cast an earlier vote in the same channel within the same
  second, the source does not promise that `undo` finds the vote just stored, while
  `VoteThenUndo` (which allows equal timestamps) relies on the model's tie rule.
- `Object.entries` lists integer-like keys first in the source; the model keeps
  first-seen order for all keys.
- Points.GetAll: a page size or page of 0 is read as "absent", as JavaScript's falsy check
  does on a number; `undefined` is not a separate value. Query-string inputs are not
  modelled: through `getUserProfile` the values arrive as strings, and the string `"0"` is
  truthy, so the source paginates. A page of `"0"` then gives a negative `OFFSET`, an SQL
  error, and a page size of `"0"` gives an empty page, where the model returns every row.
- Points.GetName: `result[0]` on an empty result throws inside the driver callback — an
  uncaught error, not a rejected promise; the model returns `None`.
- Points.GetUserId: as for `GetName`, an unknown handle is `None` rather than an uncaught
  error.
- Messages.GetRandomMessage: `$` patterns in replacement text (`$&`, `$1`) are not
  interpreted.
- Points.LimitCheck: the `'undefined' !== scoreCount` test of `getDailyUserScore` is always
  true and is not modelled.
- Leaderboard.RankItems, Leaderboard.GetForSlack: `RankItems` starts from an empty list, not
  from the uninitialised `items` of the source (see Findings). `GetForSlack` describes that
  corrected path. As written, any board with a row throws at `items.length`, the `catch` of
  `getForSlack` only logs it and nothing is sent; only an empty board gets its `danger`
  reply.
- Profile.GetUserProfile: models the profile with both corrections of the Findings applied,
  `rankItems` starting from an empty list and the default window. As written, every request
  resolves to `undefined` (see Findings).
- Points.GetUserId, Points.GetName: the handle is compared with `==`; MySQL's default
  collation compares case-insensitively, which is not modelled.
- Points.GetAllScores, Points.GetKarmaFeed: a window with only one of its two dates given is
  not modelled; the window is either both dates or the default. The source would then read
  the missing date with `moment.unix(undefined)`.
- Helpers.IsTimeBasedTokenStillValid: takes the timestamp as an integer. The request
  supplies it as a query string, and that conversion is not modelled.
- Leaderboard.Ranks: states only the length. What each rank is, is stated by
  `Leaderboard.RanksAgree`.

## Findings

| source | as written | input that shows it | evidently intended | confidence | as-written member | corrected member |
|---|---|---|---|---|---|---|
| src/leaderboard.ts:52 | `items` is declared but never initialised, so reading `items.length` (line 77) throws on the first row that is not skipped, and a board with no kept row returns `undefined` | a board with one user total and `itemType 'users'` | `items` starts as an empty list and collects one row per kept total | high, not executed | Leaderboard.RankItemsAsWrittenThrows | Leaderboard.RankItems |
| src/leaderboard.ts:327 | `retrieveTopScores(null, null, channel)`: `typeof null` is `'object'`, so both dates become the epoch and the window is empty. With `rankItems` corrected, every rank is then 0. As written, `rankItems([])` returns `undefined`, `for (const el of users)` (line 332) throws, and the `catch` makes the whole profile `undefined` | any user with votes in the channel | the default window of `getAllScores`, from the epoch to now | high, not executed | Leaderboard.NullWindowRankZero | Leaderboard.ProfileWindowRanks |
| src/points.js:833-839 | the daily count compares `DAY(timestamp)` with the day of the month, so votes on the same day of earlier months count too | a vote on 1 January checked on 1 February | compare the calendar date | high, not executed | PointsLegacy.LegacyCountsLastMonth | Points.DailyLimitReached |
