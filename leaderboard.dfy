/**
 * The leaderboard: competition ranking of the per-recipient totals, the Slack and web row
 * formats, the top-five Slack board, and the aggregation behind a user's profile page.
 */
module Leaderboard {
  import opened Wrappers
  import opened Text
  import opened Queries
  import opened Helpers
  import opened Points

  /** How many ranked rows the Slack board shows. */
  const SLACK_LIMIT: nat := 5
  const NO_USERS: string := "No Users on Leaderboard."

  datatype Format = Slack | Object

  /** A ranked row. A Slack line is held by its parts and `LineText` spells it out; an
      `Entry` is the object the web leaderboard receives, its score spelled by `PointsText`. */
  datatype Row = Line(rank: nat, title: string, points: nat, medal: string)
               | Entry(rank: nat, item: string, points: nat, itemId: string)

  /** `score + ' point' + plural`. */
  function PointsText(points: nat): (r: string)
    ensures |r| > 6 && (r[|r| - 1] == 's' <==> points != 1)
  {
    NatToString(points) + " point" + (if IsPlural(points) then "s" else "")
  }

  /** The text of a ranked row: `rank + '. ' + title + ' [' + points + ']'` then the winner's
      medal for a Slack line; the score text for a web entry. */
  function LineText(r: Row): string {
    match r
    case Line(rank, title, points, medal) => NatToString(rank) + ". " + title + " [" + PointsText(points) + "]" + medal
    case Entry(_, _, points, _) => PointsText(points)
  }

  // ---------------------------------------------------------------------------
  // rankItems

  /** A row is skipped when it is a user and the ranking is not of users. */
  function Keeps(itemType: string, isUser: string -> bool): ScoreTotal -> bool {
    (t: ScoreTotal) => !(isUser(t.item) && itemType != "users")
  }

  function Kept(topScores: seq<ScoreTotal>, itemType: string, isUser: string -> bool): seq<ScoreTotal> {
    Select(topScores, Keeps(itemType, isUser))
  }

  /** Ranking users keeps every row, in order. */
  lemma UsersKeepsAll(topScores: seq<ScoreTotal>, isUser: string -> bool)
    ensures Kept(topScores, "users", isUser) == topScores
  {
    SelectAll(topScores, Keeps("users", isUser));
  }

  /** Scanning one more row keeps it exactly when `Keeps` accepts it. */
  lemma KeptNext(topScores: seq<ScoreTotal>, i: nat, itemType: string, isUser: string -> bool)
    requires i < |topScores|
    ensures isUser(topScores[i].item) && itemType != "users" ==>
              Kept(topScores[..i + 1], itemType, isUser) == Kept(topScores[..i], itemType, isUser)
    ensures !(isUser(topScores[i].item) && itemType != "users") ==>
              Kept(topScores[..i + 1], itemType, isUser) == Kept(topScores[..i], itemType, isUser) + [topScores[i]]
  {
    assert topScores[..i + 1] == topScores[..i] + [topScores[i]];
    SelectAppend(topScores[..i], topScores[i], Keeps(itemType, isUser));
  }

  /** Where the run of equal totals ending at `i` starts. */
  function RunStart(s: seq<ScoreTotal>, i: nat): (r: nat)
    requires i < |s|
    ensures r <= i
  {
    if i > 0 && s[i].score == s[i - 1].score then RunStart(s, i - 1) else i
  }

  /** The competition rank `rankItems` gives row `i`: a total equal to the one before keeps
      its rank, any other takes its 1-based position. */
  function Rank(s: seq<ScoreTotal>, i: nat): nat
    requires i < |s|
  {
    RunStart(s, i) + 1
  }

  /** Ranks start at 1, never decrease and never exceed the position; a tie shares the rank
      and a change of total jumps to the position. */
  lemma RankShape(s: seq<ScoreTotal>, i: nat)
    requires 0 < i < |s|
    ensures 1 <= Rank(s, i) <= i + 1 && Rank(s, 0) == 1
    ensures Rank(s, i - 1) <= Rank(s, i)
    ensures s[i].score == s[i - 1].score ==> Rank(s, i) == Rank(s, i - 1)
    ensures s[i].score != s[i - 1].score ==> Rank(s, i) == i + 1
  {
  }

  /** The rank of a row depends only on the rows before it. */
  lemma {:induction false} RunStartPrefix(s: seq<ScoreTotal>, t: seq<ScoreTotal>, i: nat)
    requires i < |s|
    ensures RunStart(s + t, i) == RunStart(s, i)
    decreases i
  {
    if i > 0 {
      RunStartPrefix(s, t, i - 1);
    }
  }

  /** Over totals sorted highest first, a rank is one more than the number of strictly
      higher totals. */
  lemma {:induction false} RankCountsHigher(s: seq<ScoreTotal>, i: nat)
    requires SortedDesc(s, TotalOf) && i < |s|
    ensures Rank(s, i) == 1 + |Select(s[..i], Above(s[i].score))|
    decreases i
  {
    if i == 0 {
      assert s[..0] == [];
    } else if s[i].score == s[i - 1].score {
      RankCountsHigher(s, i - 1);
      assert s[..i] == s[..i - 1] + [s[i - 1]];
      SelectAppend(s[..i - 1], s[i - 1], Above(s[i].score));
    } else {
      assert TotalOf(s[i - 1]) >= TotalOf(s[i]);
      forall k | 0 <= k < |s[..i]| ensures Above(s[i].score)(s[..i][k]) {
        assert TotalOf(s[k]) >= TotalOf(s[i - 1]);
      }
      SelectAll(s[..i], Above(s[i].score));
    }
  }

  function Above(x: int): ScoreTotal -> bool {
    (t: ScoreTotal) => t.score > x
  }

  /** The row for one total. A user is linked on Slack and named (by `userName`) on the web;
      the first Slack row carries ` :muscle:` for a user and ` :tada:` otherwise. */
  function RowFor(t: ScoreTotal, rank: nat, first: bool, format: Format, userName: string -> string, isUser: string -> bool): Row {
    var item := if isUser(t.item) then (if format == Slack then Linked(t.item) else userName(t.item))
                else t.item;
    match format
    case Slack => Line(rank, UpperFirst(item), t.score, Medal(first, isUser(t.item)))
    case Object => Entry(rank, UpperFirst(item), t.score, t.item)
  }

  /** Slack's mention markup, what `maybeLinkItem` gives an item confirmed as a user. */
  function Linked(item: string): string {
    "<@" + item + ">"
  }

  lemma LinkedIsMaybeLinkItem(item: string)
    requires IsUser(item)
    ensures Linked(item) == MaybeLinkItem(item)
  {
  }

  function Medal(first: bool, user: bool): string {
    if !first then "" else if user then " :muscle:" else " :tada:"
  }

  /** A row keeps its total's rank and score. A Slack line carries a medal exactly when it
      is the first, `:muscle:` for a user; a user's mention is shown as is, since
      capitalising it leaves `<@` alone. A web entry keeps the raw item as its id and shows
      the user's name, or the item, with the first letter capitalised. */
  lemma RowForShape(t: ScoreTotal, rank: nat, first: bool, format: Format, userName: string -> string,
                    isUser: string -> bool)
    ensures var r := RowFor(t, rank, first, format, userName, isUser);
            r.rank == rank && r.points == t.score
            && (r.Line? <==> format == Slack)
            && (r.Line? ==> (r.medal != "" <==> first) && (first && isUser(t.item) ==> r.medal == " :muscle:"))
            && (r.Line? && isUser(t.item) ==> r.title == Linked(t.item))
            && (r.Line? && !isUser(t.item) ==> r.title == UpperFirst(t.item))
            && (r.Entry? ==> r.itemId == t.item
                             && r.item == UpperFirst(if isUser(t.item) then userName(t.item) else t.item))
  {
    var l := Linked(t.item);
    assert UpperFirst(l) == l by {
      assert l[0] == '<';
      assert [l[0]] + l[1..] == l;
    }
  }

  /** A Slack row never looks up a name: any `userName` gives the same row. */
  lemma SlackRowNameFree(t: ScoreTotal, rank: nat, first: bool, n1: string -> string, n2: string -> string,
                         isUser: string -> bool)
    ensures RowFor(t, rank, first, Slack, n1, isUser) == RowFor(t, rank, first, Slack, n2, isUser)
  {
  }

  /** The ranks as `rankItems` hands them out, row by row: a total equal to the one before
      takes that one's rank, any other its 1-based position. */
  function Ranks(s: seq<ScoreTotal>): (r: seq<nat>)
    ensures |r| == |s|
  {
    if s == [] then []
    else
      var init := Ranks(s[..|s| - 1]);
      init + [if |s| > 1 && s[|s| - 1].score == s[|s| - 2].score then init[|init| - 1] else |s|]
  }

  /** Handing out ranks row by row gives every row its competition rank. */
  lemma {:induction false} RanksAgree(s: seq<ScoreTotal>, i: nat)
    requires i < |s|
    ensures Ranks(s)[i] == Rank(s, i)
    decreases |s|
  {
    var init := s[..|s| - 1];
    assert s == init + [s[|s| - 1]];
    if i < |init| {
      RanksAgree(init, i);
      RunStartPrefix(init, [s[|s| - 1]], i);
      assert Ranks(s)[i] == Ranks(init)[i];
    } else if i > 0 && s[i].score == s[i - 1].score {
      RanksAgree(init, i - 1);
      RunStartPrefix(init, [s[|s| - 1]], i - 1);
    }
  }

  /** `items` ranks `kept`: one row per total, in order, each with the rank `Ranks` hands
      out, only the first marked as the winner. */
  ghost predicate RankedRows(items: seq<Row>, kept: seq<ScoreTotal>, format: Format, userName: string -> string,
                             isUser: string -> bool)
    decreases |items|
  {
    |items| == |kept| &&
    (items == [] ||
     (RankedRows(items[..|items| - 1], kept[..|kept| - 1], format, userName, isUser)
      && items[|items| - 1] == RowFor(kept[|kept| - 1], Ranks(kept)[|kept| - 1], |kept| == 1, format, userName, isUser)))
  }

  /** Appending a total with its rank appends its row. */
  lemma RankedRowsSnoc(items: seq<Row>, kept: seq<ScoreTotal>, x: ScoreTotal, row: Row, rank: nat,
                       format: Format, userName: string -> string, isUser: string -> bool)
    requires RankedRows(items, kept, format, userName, isUser)
    requires rank == Ranks(kept + [x])[|kept|] && row == RowFor(x, rank, |kept| == 0, format, userName, isUser)
    ensures RankedRows(items + [row], kept + [x], format, userName, isUser)
  {
    assert (items + [row])[..|items|] == items;
    assert (kept + [x])[..|kept|] == kept;
  }

  /** Row `k` of a ranking is total `k` with its rank. */
  lemma {:induction false} RankedRowsAt(items: seq<Row>, kept: seq<ScoreTotal>, format: Format,
                                        userName: string -> string, isUser: string -> bool, k: nat)
    requires RankedRows(items, kept, format, userName, isUser) && k < |items|
    ensures items[k] == RowFor(kept[k], Rank(kept, k), k == 0, format, userName, isUser)
  {
    RankedRowsRanks(items, kept, format, userName, isUser, k);
    RanksAgree(kept, k);
  }

  lemma {:induction false} RankedRowsRanks(items: seq<Row>, kept: seq<ScoreTotal>, format: Format,
                                           userName: string -> string, isUser: string -> bool, k: nat)
    requires RankedRows(items, kept, format, userName, isUser) && k < |items|
    ensures items[k] == RowFor(kept[k], Ranks(kept)[k], k == 0, format, userName, isUser)
    decreases |items|
  {
    if k < |items| - 1 {
      var init := kept[..|kept| - 1];
      RankedRowsRanks(items[..|items| - 1], init, format, userName, isUser, k);
      assert Ranks(kept)[k] == Ranks(init)[k];
    }
  }

  /** On a Slack board only the first row carries a medal. */
  lemma MedalOnlyFirst(items: seq<Row>, kept: seq<ScoreTotal>, userName: string -> string, isUser: string -> bool,
                       k: nat)
    requires RankedRows(items, kept, Slack, userName, isUser) && k < |items|
    ensures items[k].Line? && (items[k].medal != "" <==> k == 0)
  {
    RankedRowsAt(items, kept, Slack, userName, isUser, k);
    RowForShape(kept[k], Rank(kept, k), k == 0, Slack, userName, isUser);
  }

  /** The state of `rankItems` after the totals `kept`: their rows, and the score and
      rank of the last of them. */
  ghost predicate Ranking(items: seq<Row>, kept: seq<ScoreTotal>, lastScore: Option<nat>, lastRank: nat,
                          format: Format, userName: string -> string, isUser: string -> bool)
  {
    && RankedRows(items, kept, format, userName, isUser)
    && lastScore == (if kept == [] then None else Some(kept[|kept| - 1].score))
    && (kept != [] ==> lastRank == Ranks(kept)[|kept| - 1])
  }

  /** The body of `rankItems` for a total it keeps: the rank, the row, and the new last
      rank and score. */
  method Emit(items: seq<Row>, ghost kept: seq<ScoreTotal>, lastScore: Option<nat>, lastRank: nat, score: ScoreTotal,
              format: Format, userName: string -> string, isUser: string -> bool)
    returns (items': seq<Row>, lastScore': Option<nat>, lastRank': nat)
    requires Ranking(items, kept, lastScore, lastRank, format, userName, isUser)
    ensures Ranking(items', kept + [score], lastScore', lastRank', format, userName, isUser)
  {
    var rank := if lastScore == Some(score.score) then lastRank else |items| + 1;
    var output := RowFor(score, rank, |items| == 0, format, userName, isUser);
    assert rank == Ranks(kept + [score])[|kept|] by {
      assert (kept + [score])[..|kept|] == kept;
    }
    RankedRowsSnoc(items, kept, score, output, rank, format, userName, isUser);
    items' := items + [output];
    lastRank' := rank;
    lastScore' := Some(score.score);
  }

  /** `rankItems`: one row per kept total, in order, with its competition rank. */
  method RankItems(topScores: seq<ScoreTotal>, itemType: string, format: Format, userName: string -> string,
                   isUser: string -> bool)
    returns (items: seq<Row>)
    ensures RankedRows(items, Kept(topScores, itemType, isUser), format, userName, isUser)
  {
    items := [];
    var lastScore: Option<nat> := None;
    var lastRank: nat := 0;
    ghost var kept: seq<ScoreTotal> := [];
    for i := 0 to |topScores|
      invariant kept == Kept(topScores[..i], itemType, isUser)
      invariant Ranking(items, kept, lastScore, lastRank, format, userName, isUser)
    {
      var score := topScores[i];
      KeptNext(topScores, i, itemType, isUser);
      var isUserConfirmed := isUser(score.item);
      if !(isUserConfirmed && itemType != "users") {
        items, lastScore, lastRank := Emit(items, kept, lastScore, lastRank, score, format, userName, isUser);
        kept := kept + [score];
      }
    }
    assert topScores[..|topScores|] == topScores;
  }

  // ---------------------------------------------------------------------------
  // rankItems as written

  /** The error reading the length of the unassigned `items` raises. */
  const ITEMS_UNDEFINED: string := "Cannot read properties of undefined (reading 'length')"

  /** `rankItems` exactly as written: `items` has no initial list, so the first total that is
      not skipped throws when its rank reads `items.length`; if every total is skipped the
      result is `undefined`, here `Ok(())`. */
  function RankItemsAsWritten(topScores: seq<ScoreTotal>, itemType: string): (r: Result<(), string>)
    ensures r.Err? <==> exists k :: 0 <= k < |topScores| && Keeps(itemType, IsUser)(topScores[k])
    ensures r.Err? ==> r.error == ITEMS_UNDEFINED
  {
    if topScores == [] then Ok(())
    else if IsUser(topScores[0].item) && itemType != "users" then
      var r := RankItemsAsWritten(topScores[1..], itemType);
      assert (exists k :: 0 <= k < |topScores| && Keeps(itemType, IsUser)(topScores[k]))
             <==> (exists k :: 0 <= k < |topScores[1..]| && Keeps(itemType, IsUser)(topScores[1..][k])) by {
        forall k | 0 <= k < |topScores[1..]| ensures topScores[1..][k] == topScores[k + 1] { }
        if exists k :: 0 <= k < |topScores| && Keeps(itemType, IsUser)(topScores[k]) {
          var k :| 0 <= k < |topScores| && Keeps(itemType, IsUser)(topScores[k]);
          assert k != 0;
          assert Keeps(itemType, IsUser)(topScores[1..][k - 1]);
        }
      }
      r
    else
      assert Keeps(itemType, IsUser)(topScores[0]);
      Err(ITEMS_UNDEFINED)
  }

  /** As written, ranking users fails on any non-empty list of totals: a single total
      already throws. */
  lemma RankItemsAsWrittenThrows(t: ScoreTotal)
    ensures RankItemsAsWritten([t], "users") == Err(ITEMS_UNDEFINED)
  {
    assert Keeps("users", IsUser)([t][0]);
  }

  /** Started from an empty list, ranking users gives one row per total, in order, the first
      ranked 1. */
  lemma RankItemsUsers(items: seq<Row>, topScores: seq<ScoreTotal>, format: Format, userName: string -> string, isUser: string -> bool)
    requires RankedRows(items, Kept(topScores, "users", isUser), format, userName, isUser)
    ensures |items| == |topScores|
    ensures topScores != [] ==> items[0].rank == 1
  {
    UsersKeepsAll(topScores, isUser);
    if topScores != [] {
      RankedRowsAt(items, topScores, format, userName, isUser, 0);
    }
  }

  // ---------------------------------------------------------------------------
  // getForSlack

  datatype Attachment = Attachment(text: string, color: string, fields: seq<string>)

  function Lines(rows: seq<Row>): seq<string> {
    seq(|rows|, k requires 0 <= k < |rows| => LineText(rows[k]))
  }

  /** How many ranked rows the board shows. */
  function Shown(n: nat): (r: nat)
    ensures r <= n && r <= SLACK_LIMIT && (r == n || r == SLACK_LIMIT)
  {
    if n < SLACK_LIMIT then n else SLACK_LIMIT
  }

  /** The attachment `getForSlack` sends for the ranked `users`: a red "no users" note when
      there are none, otherwise a green board of the top rows and a link to the whole list. */
  function Board(users: seq<Row>, channel: string, channelName: string, webUrl: string): (r: Attachment)
    ensures users == [] <==> r.color == "danger"
    ensures users == [] ==> r == Attachment(NO_USERS, "danger", [])
    ensures users != [] ==> r.color == "good" && |r.fields| == 2
  {
    if users == [] then Attachment(NO_USERS, "danger", [])
    else
      Attachment("Here you go. Best people this month in channel <#" + channel + "|" + channelName + ">.",
                 "good",
                 [Join(Lines(users[..Shown(|users|)]), "\n"), "\n" + "Or see the <" + webUrl + "|whole list>. "])
  }

  /** The board's first field holds the first five lines (all of them when fewer), one per
      line of text. */
  lemma BoardShowsTopFive(users: seq<Row>, channel: string, channelName: string, webUrl: string)
    requires users != [] && forall k :: 0 <= k < |users| ==> '\n' !in LineText(users[k])
    ensures Split(Board(users, channel, channelName, webUrl).fields[0], '\n') == Lines(users)[..Shown(|users|)]
  {
    var top := Lines(users[..Shown(|users|)]);
    assert top == Lines(users)[..Shown(|users|)];
    SplitJoin(top, '\n');
  }

  /** The leaderboard query has totals exactly when some vote is in scope. */
  lemma TotalsIffVotes(scores: seq<Score>, w: Window, channelId: string, now: int)
    ensures GetAllScores(scores, w, channelId, now) == [] <==> ScoresInScope(scores, w, channelId, now) == []
  {
    var r := GetAllScores(scores, w, channelId, now);
    var scope := ScoresInScope(scores, w, channelId, now);
    if scope != [] {
      var j := GetAllScoresCovers(scores, w, channelId, now, scope[0]);
    }
  }

  /** The `userName` handed to a Slack ranking. Slack rows never look a name up
      (`SlackRowNameFree`), so which function it is does not matter; the identity is used. */
  function SlackName(item: string): string {
    item
  }

  /** `getForSlack`: the users voted for in the channel from the epoch to now, ranked, on
      the board. */
  method GetForSlack(scores: seq<Score>, channel: string, channelName: string, webUrl: string, now: int)
    returns (users: seq<Row>, message: Attachment)
    ensures RankedRows(users, GetAllScores(scores, DefaultWindow, channel, now), Slack, SlackName, IsUser)
    ensures message == Board(users, channel, channelName, webUrl)
    ensures message.color == "danger" <==> ScoresInScope(scores, DefaultWindow, channel, now) == []
  {
    var tops := GetAllScores(scores, DefaultWindow, channel, now);
    UsersKeepsAll(tops, IsUser);
    users := RankItems(tops, "users", Slack, SlackName, IsUser);
    TotalsIffVotes(scores, DefaultWindow, channel, now);
    message := Board(users, channel, channelName, webUrl);
  }

  // ---------------------------------------------------------------------------
  // getUserProfile: the user's rank

  predicate IsEntryFor(row: Row, userId: string) {
    row.Entry? && row.itemId == userId
  }

  /** The rank of the last web entry for `userId`, or 0 when there is none. */
  function LastRankOf(users: seq<Row>, userId: string): nat {
    if users == [] then 0
    else if IsEntryFor(users[|users| - 1], userId) then users[|users| - 1].rank
    else LastRankOf(users[..|users| - 1], userId)
  }

  /** `LastRankOf` is 0 without an entry for the user, and otherwise the rank of the last one. */
  lemma {:induction false} LastRankOfMeans(users: seq<Row>, userId: string)
    ensures (forall k :: 0 <= k < |users| ==> !IsEntryFor(users[k], userId)) ==> LastRankOf(users, userId) == 0
    ensures forall k :: (0 <= k < |users| && IsEntryFor(users[k], userId)
                         && forall j :: k < j < |users| ==> !IsEntryFor(users[j], userId))
                        ==> LastRankOf(users, userId) == users[k].rank
  {
    if users != [] {
      var init := users[..|users| - 1];
      LastRankOfMeans(init, userId);
      assert forall k :: 0 <= k < |init| ==> init[k] == users[k];
    }
  }

  /** The loop over the ranked rows in `getUserProfile`. */
  method UserRank(users: seq<Row>, userId: string) returns (userRank: nat)
    ensures userRank == LastRankOf(users, userId)
  {
    userRank := 0;
    for i := 0 to |users|
      invariant userRank == LastRankOf(users[..i], userId)
    {
      assert users[..i + 1][..i] == users[..i];
      if users[i].Entry? && users[i].itemId == userId {
        userRank := users[i].rank;
      }
    }
    assert users[..|users|] == users;
  }

  /** Over the web ranking of distinct totals, the profile's rank is the competition rank of
      the user's total, and 0 when the user has none. */
  lemma ProfileRankIs(users: seq<Row>, tops: seq<ScoreTotal>, userName: string -> string, isUser: string -> bool, userId: string)
    requires RankedRows(users, tops, Object, userName, isUser)
    requires forall i, j :: 0 <= i < j < |tops| ==> tops[i].item != tops[j].item
    ensures (forall j :: 0 <= j < |tops| ==> tops[j].item != userId) ==> LastRankOf(users, userId) == 0
    ensures forall j :: 0 <= j < |tops| && tops[j].item == userId ==> LastRankOf(users, userId) == Rank(tops, j)
  {
    assert forall k :: 0 <= k < |users| ==> (IsEntryFor(users[k], userId) <==> tops[k].item == userId) by {
      forall k | 0 <= k < |users| ensures IsEntryFor(users[k], userId) <==> tops[k].item == userId {
        RankedRowsAt(users, tops, Object, userName, isUser, k);
      }
    }
    LastRankOfMeans(users, userId);
    forall j | 0 <= j < |tops| && tops[j].item == userId ensures LastRankOf(users, userId) == Rank(tops, j) {
      RankedRowsAt(users, tops, Object, userName, isUser, j);
      assert forall i :: j < i < |users| ==> !IsEntryFor(users[i], userId);
    }
  }

  /** The window `getUserProfile` passes as written, `retrieveTopScores(null, null, channel)`:
      `null` is not `undefined`, so both bounds are taken as the epoch. */
  const NULL_WINDOW: Window := Between(0, 0)

  /** As written, the profile's leaderboard is empty: no vote is strictly after and before
      the epoch. */
  lemma NullWindowEmpty(scores: seq<Score>, channel: string, now: int)
    ensures GetAllScores(scores, NULL_WINDOW, channel, now) == []
  {
    SelectNone(scores, InScoreScope(channel, 0, 0));
    TotalsIffVotes(scores, NULL_WINDOW, channel, now);
  }

  /** So, as written, the profile rank is 0 for every user. */
  lemma NullWindowRankZero(scores: seq<Score>, channel: string, now: int, users: seq<Row>,
                           userName: string -> string, isUser: string -> bool, userId: string)
    requires RankedRows(users, Kept(GetAllScores(scores, NULL_WINDOW, channel, now), "users", isUser), Object, userName, isUser)
    ensures LastRankOf(users, userId) == 0
  {
    NullWindowEmpty(scores, channel, now);
    UsersKeepsAll([], isUser);
    assert users == [];
  }

  /** The window the profile rank is meant to use: the leaderboard's default, from the epoch
      to now. */
  function ProfileWindow(): Window {
    DefaultWindow
  }

  /** In a web ranking of distinct totals every total's item has a rank of at least 1. */
  lemma RankedItemFound(users: seq<Row>, tops: seq<ScoreTotal>, userName: string -> string, isUser: string -> bool,
                        j: nat)
    requires RankedRows(users, tops, Object, userName, isUser) && j < |tops|
    requires forall i, k :: 0 <= i < k < |tops| ==> tops[i].item != tops[k].item
    ensures LastRankOf(users, tops[j].item) >= 1
  {
    ProfileRankIs(users, tops, userName, isUser, tops[j].item);
  }

  /** The profile window's scope holds every vote in the channel scope between the epoch and
      now. */
  lemma ProfileScopeHas(scores: seq<Score>, channel: string, now: int, s: Score)
    requires s in scores && ChannelInScope(channel, s.channel) && 0 < s.timestamp < now
    ensures s in ScoresInScope(scores, ProfileWindow(), channel, now)
  {
    var p := InScoreScope(channel, 0, now);
    assert p(s);
    SelectMembers(scores, p, s);
  }

  /** With that window every vote in the channel scope between the epoch and now gives its
      recipient a total. */
  lemma RecipientHasTotal(scores: seq<Score>, channel: string, now: int, s: Score) returns (j: nat)
    requires s in scores && ChannelInScope(channel, s.channel) && 0 < s.timestamp < now
    ensures j < |GetAllScores(scores, ProfileWindow(), channel, now)|
    ensures GetAllScores(scores, ProfileWindow(), channel, now)[j].item == s.to
  {
    ProfileScopeHas(scores, channel, now, s);
    j := GetAllScoresCovers(scores, ProfileWindow(), channel, now, s);
  }

  /** And so every such recipient has a profile rank of at least 1. */
  lemma ProfileWindowRanks(scores: seq<Score>, channel: string, now: int, s: Score,
                           users: seq<Row>, userName: string -> string, isUser: string -> bool)
    requires s in scores && ChannelInScope(channel, s.channel) && 0 < s.timestamp < now
    requires RankedRows(users, Kept(GetAllScores(scores, ProfileWindow(), channel, now), "users", isUser), Object, userName, isUser)
    ensures LastRankOf(users, s.to) >= 1
  {
    var j := RecipientHasTotal(scores, channel, now, s);
    var tops := GetAllScores(scores, ProfileWindow(), channel, now);
    UsersKeepsAll(tops, isUser);
    RankedItemFound(users, tops, userName, isUser, j);
  }
}
