/**
 * The score store: the `user`, `channel` and `score` tables held in memory, the read-only
 * queries as functions over them, and the statements that change them as methods of
 * `Store`. Timestamps are whole seconds on one clock, the one days are counted in; `now` is
 * passed in.
 */
module Points {
  import opened Wrappers
  import opened Text
  import opened Queries

  /** Defaults of `USER_LIMIT_VOTING_MAX` and `UNDO_TIME_LIMIT` (seconds). */
  const USER_LIMIT_VOTING_MAX: int := 300
  const UNDO_TIME_LIMIT: int := 300
  const SECONDS_PER_DAY: int := 86400
  const DAILY_LIMIT_MESSAGE: string := "You have reached your daily voting limit!"

  /** A row of the `score` table: one vote. */
  datatype Score = Score(id: nat, timestamp: int, to: string, from: string, channel: string,
                         description: Option<string>)
  /** A row of the `user` table; `handle` is the `user_username` column. */
  datatype User = User(id: string, name: string, handle: string)
  datatype Channel = Channel(id: string, name: string)

  predicate UniqueIds(scores: seq<Score>) {
    forall i, j :: 0 <= i < j < |scores| ==> scores[i].id != scores[j].id
  }

  // ---------------------------------------------------------------------------
  // getUserScore: SELECT COUNT(score_id) WHERE to_user_id = ? AND channel_id = ?

  function ReceivedIn(item: string, channel: string): Score -> bool {
    (s: Score) => s.to == item && s.channel == channel
  }

  /** The number of votes `item` has received in `channel`. */
  function UserScore(scores: seq<Score>, item: string, channel: string): nat {
    |Select(scores, ReceivedIn(item, channel))|
  }

  /** One more vote row raises exactly the matching recipient's count, by one. */
  lemma UserScoreAppend(scores: seq<Score>, s: Score, item: string, channel: string)
    ensures UserScore(scores + [s], item, channel)
         == UserScore(scores, item, channel) + if s.to == item && s.channel == channel then 1 else 0
  {
    SelectAppend(scores, s, ReceivedIn(item, channel));
  }

  /** Dropping the row at `i` lowers exactly the matching recipient's count, by one. */
  lemma UserScoreRemoveAt(scores: seq<Score>, i: int, item: string, channel: string)
    requires 0 <= i < |scores|
    ensures UserScore(scores[..i] + scores[i + 1..], item, channel)
            + (if scores[i].to == item && scores[i].channel == channel then 1 else 0)
         == UserScore(scores, item, channel)
  {
    var p := ReceivedIn(item, channel);
    assert scores == scores[..i] + [scores[i]] + scores[i + 1..];
    SelectConcat(scores[..i] + [scores[i]], scores[i + 1..], p);
    SelectConcat(scores[..i], [scores[i]], p);
    SelectConcat(scores[..i], scores[i + 1..], p);
    assert Select([scores[i]], p) == (if p(scores[i]) then [scores[i]] else []) by {
      assert [scores[i]][..0] == [];
    }
  }

  // ---------------------------------------------------------------------------
  // getLast: the newest vote of a voter in a channel within the undo window

  predicate Undoable(s: Score, voter: string, channel: string, cutoff: int) {
    s.from == voter && s.timestamp >= cutoff && s.channel == channel
  }

  /** `ORDER BY timestamp DESC LIMIT 1` over the voter's votes in the channel at or after
      `cutoff`; of several with the newest timestamp, the one inserted last. */
  function Last(scores: seq<Score>, voter: string, channel: string, cutoff: int): (r: Option<Score>)
    ensures r.Some? ==> r.value in scores && Undoable(r.value, voter, channel, cutoff)
    ensures r.Some? ==> forall k :: 0 <= k < |scores| && Undoable(scores[k], voter, channel, cutoff) ==>
                          scores[k].timestamp <= r.value.timestamp
    ensures r.None? <==> forall k :: 0 <= k < |scores| ==> !Undoable(scores[k], voter, channel, cutoff)
  {
    if scores == [] then None
    else
      var init := scores[..|scores| - 1];
      var x := scores[|scores| - 1];
      assert scores == init + [x];
      var prev := Last(init, voter, channel, cutoff);
      if Undoable(x, voter, channel, cutoff) && (prev.None? || prev.value.timestamp <= x.timestamp)
      then Some(x)
      else prev
  }

  // ---------------------------------------------------------------------------
  // removeLast: DELETE FROM score WHERE score_id = ?

  function IdIsNot(id: nat): Score -> bool {
    (s: Score) => s.id != id
  }

  function RemoveId(scores: seq<Score>, id: nat): seq<Score> {
    Select(scores, IdIsNot(id))
  }

  /** With unique ids, deleting by the id of row `i` deletes that row and no other. */
  lemma RemoveUnique(scores: seq<Score>, i: int)
    requires UniqueIds(scores) && 0 <= i < |scores|
    ensures RemoveId(scores, scores[i].id) == scores[..i] + scores[i + 1..]
  {
    var p := IdIsNot(scores[i].id);
    forall k | 0 <= k < |scores| && k != i ensures p(scores[k]) {
      if k < i {
        assert scores[k].id != scores[i].id;
      } else {
        assert scores[i].id != scores[k].id;
      }
    }
    SelectDropsOne(scores, i, p);
  }

  /** Deleting an id no row has changes nothing. */
  lemma RemoveAbsent(scores: seq<Score>, id: nat)
    requires forall k :: 0 <= k < |scores| ==> scores[k].id != id
    ensures RemoveId(scores, id) == scores
  {
    SelectAll(scores, IdIsNot(id));
  }

  /** A vote newer than every other row and inside the window is the one undo picks, and
      deleting it gives back the table — and so every count — as it was before the vote. */
  lemma VoteThenUndo(scores: seq<Score>, s: Score, cutoff: int)
    requires forall k :: 0 <= k < |scores| ==> scores[k].id != s.id && scores[k].timestamp <= s.timestamp
    requires s.timestamp >= cutoff
    ensures Last(scores + [s], s.from, s.channel, cutoff) == Some(s)
    ensures RemoveId(scores + [s], s.id) == scores
  {
    var all := scores + [s];
    assert all[..|all| - 1] == scores;
    SelectAppend(scores, s, IdIsNot(s.id));
    RemoveAbsent(scores, s.id);
  }

  // ---------------------------------------------------------------------------
  // getDayilyVotesByUser and getDailyUserScore

  /** The calendar day of a timestamp, as `DATE(timestamp)` reads it on a server whose time
      zone is the model's clock. */
  function Day(timestamp: int): int {
    timestamp / SECONDS_PER_DAY
  }

  function VotedOn(voter: string, today: int): Score -> bool {
    (s: Score) => s.from == voter && Day(s.timestamp) == today
  }

  /** The votes `voter` cast on the calendar day `today`. */
  function DailyVotes(scores: seq<Score>, voter: string, today: int): nat {
    |Select(scores, VotedOn(voter, today))|
  }

  /** The result of the daily-limit check: may the vote go ahead, and if not, why. */
  datatype DailyCheck = DailyCheck(operation: bool, message: Option<string>)

  /** A vote is allowed while one more vote stays within the limit. */
  function LimitCheck(limit: int, dailyVotes: nat): (r: DailyCheck)
    ensures r.operation <==> dailyVotes < limit
    ensures r.operation <==> r.message.None?
    ensures !r.operation ==> r.message == Some(DAILY_LIMIT_MESSAGE)
  {
    if limit >= dailyVotes + 1 then DailyCheck(true, None)
    else DailyCheck(false, Some(DAILY_LIMIT_MESSAGE))
  }

  function GetDailyUserScore(scores: seq<Score>, voter: string, limit: int, today: int): DailyCheck {
    LimitCheck(limit, DailyVotes(scores, voter, today))
  }

  /** Once a voter has `limit` votes today, the next vote is refused; a vote cast on
      another day, or by someone else, does not count. */
  lemma DailyLimitReached(scores: seq<Score>, s: Score, limit: int, today: int)
    ensures DailyVotes(scores + [s], s.from, today)
         == DailyVotes(scores, s.from, today) + if Day(s.timestamp) == today then 1 else 0
    ensures DailyVotes(scores, s.from, today) >= limit ==> !GetDailyUserScore(scores, s.from, limit, today).operation
  {
    SelectAppend(scores, s, VotedOn(s.from, today));
  }

  // ---------------------------------------------------------------------------
  // Channel and time scopes shared by getAllScores and getKarmaFeed

  /** `'all'` is every channel; otherwise the comma-separated list of ids (one id being the
      list of one). */
  predicate ChannelInScope(channelId: string, c: string) {
    channelId == "all" || c in Split(channelId, ',')
  }

  lemma SingleChannelScope(channelId: string, c: string)
    requires ',' !in channelId && channelId != "all"
    ensures ChannelInScope(channelId, c) <==> c == channelId
  {
    SplitWithout(channelId, ',');
  }

  /** The optional start and end dates: both given, or the query's default window. */
  datatype Window = DefaultWindow | Between(start: int, end: int)

  function Low(w: Window, defaultStart: int): int {
    if w.Between? then w.start else defaultStart
  }

  function High(w: Window, now: int): int {
    if w.Between? then w.end else now
  }

  // ---------------------------------------------------------------------------
  // getAllScores: per-recipient counts, highest first

  datatype ScoreTotal = ScoreTotal(item: string, score: nat)

  function TotalOf(t: ScoreTotal): int {
    t.score
  }

  function InScoreScope(channelId: string, lo: int, hi: int): Score -> bool {
    (s: Score) => lo < s.timestamp < hi && ChannelInScope(channelId, s.channel)
  }

  /** The votes the leaderboard query counts: strictly inside the window (by default from
      the epoch to now) and in the channel scope. */
  function ScoresInScope(scores: seq<Score>, w: Window, channelId: string, now: int): seq<Score> {
    Select(scores, InScoreScope(channelId, Low(w, 0), High(w, now)))
  }

  function To(item: string): Score -> bool {
    (s: Score) => s.to == item
  }

  function Received(rows: seq<Score>, item: string): nat {
    |Select(rows, To(item))|
  }

  predicate Distinct(xs: seq<string>) {
    forall i, j :: 0 <= i < j < |xs| ==> xs[i] != xs[j]
  }

  /** The recipients of `rows`, each once, in order of first appearance. */
  function Recipients(rows: seq<Score>): (r: seq<string>)
    ensures Distinct(r)
    ensures forall k :: 0 <= k < |rows| ==> rows[k].to in r
    ensures forall k :: 0 <= k < |r| ==> exists j :: 0 <= j < |rows| && rows[j].to == r[k]
  {
    if rows == [] then []
    else
      var init := rows[..|rows| - 1];
      var x := rows[|rows| - 1];
      assert rows == init + [x];
      var prev := Recipients(init);
      prev + if x.to in prev then [] else [x.to]
  }

  lemma ReceivedPositive(rows: seq<Score>, j: int)
    requires 0 <= j < |rows|
    ensures Received(rows, rows[j].to) > 0
  {
    SelectMembers(rows, To(rows[j].to), rows[j]);
  }

  /** `GROUP BY to_user_id`: each recipient with its number of votes. */
  function Tally(rows: seq<Score>): (r: seq<ScoreTotal>)
    ensures forall k :: 0 <= k < |r| ==> r[k].score == Received(rows, r[k].item) && r[k].score > 0
    ensures forall i, j :: 0 <= i < j < |r| ==> r[i].item != r[j].item
  {
    var rs := Recipients(rows);
    var r := seq(|rs|, i requires 0 <= i < |rs| => ScoreTotal(rs[i], Received(rows, rs[i])));
    assert forall k :: 0 <= k < |r| ==> r[k].score > 0 by {
      forall k | 0 <= k < |r| ensures r[k].score > 0 {
        var j :| 0 <= j < |rows| && rows[j].to == rs[k];
        ReceivedPositive(rows, j);
      }
    }
    r
  }

  /** Every recipient of a vote among `rows` has its group. */
  lemma TallyCovers(rows: seq<Score>, s: Score) returns (j: nat)
    requires s in rows
    ensures j < |Tally(rows)| && Tally(rows)[j].item == s.to
  {
    var k :| 0 <= k < |rows| && rows[k] == s;
    var rs := Recipients(rows);
    j :| 0 <= j < |rs| && rs[j] == rows[k].to;
  }

  /** `getAllScores`: one row per recipient of a vote in scope, with its count, highest
      count first. */
  function GetAllScores(scores: seq<Score>, w: Window, channelId: string, now: int): (r: seq<ScoreTotal>)
    ensures SortedDesc(r, TotalOf)
    ensures forall i, j :: 0 <= i < j < |r| ==> r[i].item != r[j].item
    ensures forall k :: 0 <= k < |r| ==>
              r[k].score == Received(ScoresInScope(scores, w, channelId, now), r[k].item) && r[k].score > 0
  {
    var t := Tally(ScoresInScope(scores, w, channelId, now));
    var r := SortDesc(t, TotalOf);
    SortedKeepsTally(t, r);
    r
  }

  /** Every recipient of a vote in scope has a row on the board. */
  lemma GetAllScoresCovers(scores: seq<Score>, w: Window, channelId: string, now: int, s: Score) returns (j: nat)
    requires s in ScoresInScope(scores, w, channelId, now)
    ensures j < |GetAllScores(scores, w, channelId, now)| && GetAllScores(scores, w, channelId, now)[j].item == s.to
  {
    var t := Tally(ScoresInScope(scores, w, channelId, now));
    var r := GetAllScores(scores, w, channelId, now);
    var a := TallyCovers(ScoresInScope(scores, w, channelId, now), s);
    SortedKeepsTally(t, r);
    assert t[a] in r;
    j :| 0 <= j < |r| && r[j] == t[a];
  }

  lemma SortedKeepsTally(t: seq<ScoreTotal>, r: seq<ScoreTotal>)
    requires multiset(r) == multiset(t) && |r| == |t|
    requires forall i, j :: 0 <= i < j < |t| ==> t[i].item != t[j].item
    ensures forall k :: 0 <= k < |r| ==> r[k] in t
    ensures forall k :: 0 <= k < |t| ==> t[k] in r
    ensures forall i, j :: 0 <= i < j < |r| ==> r[i].item != r[j].item
  {
    forall k | 0 <= k < |r| ensures r[k] in t {
      assert r[k] in multiset(r);
    }
    forall k | 0 <= k < |t| ensures t[k] in r {
      assert t[k] in multiset(t);
    }
    forall i, j | 0 <= i < j < |r| ensures r[i].item != r[j].item {
      if r[i].item == r[j].item {
        var a :| 0 <= a < |t| && t[a] == r[i];
        var b :| 0 <= b < |t| && t[b] == r[j];
        if a == b {
          assert r[i] == r[j];
          MultisetTwice(r, i, j);
          assert multiset(t)[t[a]] >= 2;
          DistinctOnce(t, a);
        }
      }
    }
  }

  lemma MultisetTwice<T>(xs: seq<T>, i: int, j: int)
    requires 0 <= i < j < |xs| && xs[i] == xs[j]
    ensures multiset(xs)[xs[i]] >= 2
  {
    assert xs == xs[..i] + [xs[i]] + xs[i + 1..j] + [xs[j]] + xs[j + 1..];
  }

  lemma {:induction false} DistinctOnce(t: seq<ScoreTotal>, a: int)
    requires 0 <= a < |t|
    requires forall i, j :: 0 <= i < j < |t| ==> t[i].item != t[j].item
    ensures multiset(t)[t[a]] == 1
    decreases |t|
  {
    if |t| > 1 {
      var last := t[|t| - 1];
      var init := t[..|t| - 1];
      assert t == init + [last];
      if a == |t| - 1 {
        forall k | 0 <= k < |init| ensures init[k] != last {
          assert t[k].item != t[|t| - 1].item;
        }
        assert last !in init;
        assert multiset(init)[last] == 0;
      } else {
        DistinctOnce(init, a);
        assert t[a].item != last.item;
      }
    }
  }

  // ---------------------------------------------------------------------------
  // The counts of getAllScores add up to the number of votes in scope

  function SumTotals(ts: seq<ScoreTotal>): int {
    if ts == [] then 0 else ts[0].score + SumTotals(ts[1..])
  }

  /** The sum of `Received(rows, r)` over a list of recipients. */
  function SumReceived(rows: seq<Score>, rs: seq<string>): int {
    if rs == [] then 0 else Received(rows, rs[0]) + SumReceived(rows, rs[1..])
  }

  lemma {:induction false} SumReceivedAppend(rows: seq<Score>, x: Score, rs: seq<string>)
    requires Distinct(rs)
    ensures SumReceived(rows + [x], rs) == SumReceived(rows, rs) + if x.to in rs then 1 else 0
    decreases |rs|
  {
    if rs != [] {
      SelectAppend(rows, x, To(rs[0]));
      SumReceivedAppend(rows, x, rs[1..]);
      if x.to == rs[0] {
        assert x.to !in rs[1..] by {
          forall k | 0 <= k < |rs[1..]| ensures rs[1..][k] != x.to {
            assert rs[0] != rs[k + 1];
          }
        }
      } else {
        assert x.to in rs <==> x.to in rs[1..] by {
          assert rs == [rs[0]] + rs[1..];
        }
      }
    }
  }

  lemma {:induction false} SumReceivedCovers(rows: seq<Score>, rs: seq<string>)
    requires Distinct(rs)
    requires forall k :: 0 <= k < |rows| ==> rows[k].to in rs
    ensures SumReceived(rows, rs) == |rows|
    decreases |rows|
  {
    if rows == [] {
      SumReceivedEmpty(rs);
    } else {
      var init := rows[..|rows| - 1];
      var x := rows[|rows| - 1];
      assert rows == init + [x];
      forall k | 0 <= k < |init| ensures init[k].to in rs {
        assert init[k] == rows[k];
      }
      SumReceivedCovers(init, rs);
      SumReceivedAppend(init, x, rs);
    }
  }

  lemma {:induction false} SumReceivedEmpty(rs: seq<string>)
    ensures SumReceived([], rs) == 0
    decreases |rs|
  {
    if rs != [] {
      SumReceivedEmpty(rs[1..]);
    }
  }

  lemma {:induction false} TallySum(rows: seq<Score>, rs: seq<string>, t: seq<ScoreTotal>)
    requires |t| == |rs|
    requires forall k :: 0 <= k < |t| ==> t[k].score == Received(rows, rs[k])
    ensures SumTotals(t) == SumReceived(rows, rs)
    decreases |t|
  {
    if t != [] {
      TallySum(rows, rs[1..], t[1..]);
    }
  }

  lemma {:induction false} SumTotalsConcat(a: seq<ScoreTotal>, b: seq<ScoreTotal>)
    ensures SumTotals(a + b) == SumTotals(a) + SumTotals(b)
    decreases |a|
  {
    if a == [] {
      assert a + b == b;
    } else {
      assert (a + b)[0] == a[0];
      assert (a + b)[1..] == a[1..] + b;
      SumTotalsConcat(a[1..], b);
    }
  }

  lemma {:induction false} SumTotalsPermutation(a: seq<ScoreTotal>, b: seq<ScoreTotal>)
    requires multiset(a) == multiset(b)
    ensures SumTotals(a) == SumTotals(b)
    decreases |a|
  {
    if a == [] {
      assert |b| == |multiset(b)| == 0;
    } else {
      assert a[0] in multiset(b);
      var j :| 0 <= j < |b| && b[j] == a[0];
      var before, after := b[..j], b[j + 1..];
      var rest := before + after;
      MultisetWithout(a, b, j);
      SumTotalsPermutation(a[1..], rest);
      assert SumTotals(b) == SumTotals(before) + b[j].score + SumTotals(after) by {
        assert b == before + ([b[j]] + after);
        SumTotalsConcat(before, [b[j]] + after);
        assert ([b[j]] + after)[1..] == after;
      }
      SumTotalsConcat(before, after);
    }
  }

  /** Every vote in scope is counted once: the leaderboard counts add up to their number. */
  lemma AllScoresSum(scores: seq<Score>, w: Window, channelId: string, now: int)
    ensures SumTotals(GetAllScores(scores, w, channelId, now)) == |ScoresInScope(scores, w, channelId, now)|
  {
    var rows := ScoresInScope(scores, w, channelId, now);
    var rs := Recipients(rows);
    var t := Tally(rows);
    TallySum(rows, rs, t);
    SumReceivedCovers(rows, rs);
    SumTotalsPermutation(GetAllScores(scores, w, channelId, now), t);
  }

  // ---------------------------------------------------------------------------
  // getKarmaFeed and getAll: votes joined with the user and channel names

  /** A row of the feed: the vote with the names of its recipient, voter and channel. */
  datatype FeedRow = FeedRow(timestamp: int, toUser: string, fromUser: string, channelName: string,
                             description: Option<string>)

  /** The responses of both feed queries: the number of matches and the rows returned. */
  datatype Feed = Feed(count: nat, rows: seq<FeedRow>)

  function FindUser(users: seq<User>, id: string): (r: Option<User>)
    ensures r.Some? ==> r.value in users && r.value.id == id
    ensures r.None? <==> forall k :: 0 <= k < |users| ==> users[k].id != id
  {
    if users == [] then None
    else if users[0].id == id then Some(users[0])
    else FindUser(users[1..], id)
  }

  function FindChannel(channels: seq<Channel>, id: string): (r: Option<Channel>)
    ensures r.Some? ==> r.value in channels && r.value.id == id
    ensures r.None? <==> forall k :: 0 <= k < |channels| ==> channels[k].id != id
  {
    if channels == [] then None
    else if channels[0].id == id then Some(channels[0])
    else FindChannel(channels[1..], id)
  }

  /** The `INNER JOIN` of a vote with `channel`, `user uTo` and `user uFrom`: no row when
      any of the three is missing. */
  function JoinRow(s: Score, users: seq<User>, channels: seq<Channel>): (r: Option<FeedRow>)
    ensures r.Some? <==> FindUser(users, s.to).Some? && FindUser(users, s.from).Some?
                         && FindChannel(channels, s.channel).Some?
    ensures r.Some? ==> r.value.timestamp == s.timestamp && r.value.description == s.description
  {
    match (FindUser(users, s.to), FindUser(users, s.from), FindChannel(channels, s.channel))
    case (Some(uTo), Some(uFrom), Some(c)) =>
      Some(FeedRow(s.timestamp, uTo.name, uFrom.name, c.name, s.description))
    case _ => None
  }

  function Timestamp(s: Score): int {
    s.timestamp
  }

  /** The joined rows of a list of joinable votes. */
  function Rows(m: seq<Score>, users: seq<User>, channels: seq<Channel>): (r: seq<FeedRow>)
    requires forall k :: 0 <= k < |m| ==> JoinRow(m[k], users, channels).Some?
    ensures |r| == |m|
    ensures forall k :: 0 <= k < |m| ==> Some(r[k]) == JoinRow(m[k], users, channels)
  {
    seq(|m|, k requires 0 <= k < |m| => JoinRow(m[k], users, channels).value)
  }

  function RowTime(r: FeedRow): int {
    r.timestamp
  }

  /** Rows taken from a list sorted newest first are newest first. */
  lemma RowsNewestFirst(m: seq<Score>, users: seq<User>, channels: seq<Channel>)
    requires forall k :: 0 <= k < |m| ==> JoinRow(m[k], users, channels).Some?
    requires SortedDesc(m, Timestamp)
    ensures SortedDesc(Rows(m, users, channels), RowTime)
  {
    var r := Rows(m, users, channels);
    forall i, j | 0 <= i < j < |m| ensures RowTime(r[i]) >= RowTime(r[j]) {
      assert Timestamp(m[i]) >= Timestamp(m[j]);
    }
  }

  /** The abstract `LIKE '%search%'` of a name against a search term. */
  type NameMatch = (string, string) -> bool

  /** The karma feed's `WHERE`: joinable, strictly inside the window, in the channel scope,
      and, for a non-empty search, with a voter name that matches it. */
  function FeedScope(users: seq<User>, channels: seq<Channel>, channelId: string, search: string,
                     like: NameMatch, lo: int, hi: int): Score -> bool
  {
    (s: Score) =>
      JoinRow(s, users, channels).Some? && lo < s.timestamp < hi && ChannelInScope(channelId, s.channel)
      && (search == "" || like(JoinRow(s, users, channels).value.fromUser, search))
  }

  /** The feed's matches newest first; the default window runs from the start of the month. */
  function FeedMatches(scores: seq<Score>, users: seq<User>, channels: seq<Channel>, channelId: string,
                       search: string, like: NameMatch, w: Window, monthStart: int, now: int): seq<Score>
  {
    SelectSorted(scores, FeedScope(users, channels, channelId, search, like, Low(w, monthStart), High(w, now)),
                 Timestamp)
  }

  /** `getKarmaFeed`: the number of matches and the page `page` (from 1) of `itemsPerPage`
      rows, newest first; a negative `LIMIT` or `OFFSET` is an SQL error. */
  function GetKarmaFeed(scores: seq<Score>, users: seq<User>, channels: seq<Channel>, itemsPerPage: int,
                        page: int, search: string, channelId: string, like: NameMatch, w: Window,
                        monthStart: int, now: int): (r: Result<Feed, string>)
    ensures r.Err? <==> itemsPerPage < 0 || (page - 1) * itemsPerPage < 0
    ensures r.Ok? ==> r.value.count
                      == |Select(scores, FeedScope(users, channels, channelId, search, like,
                                                   Low(w, monthStart), High(w, now)))|
    ensures r.Ok? ==> |r.value.rows| <= itemsPerPage && SortedDesc(r.value.rows, RowTime)
    ensures r.Ok? ==>
              var m := FeedMatches(scores, users, channels, channelId, search, like, w, monthStart, now);
              forall k :: 0 <= k < |r.value.rows| ==>
                (page - 1) * itemsPerPage + k < |m|
                && Some(r.value.rows[k]) == JoinRow(m[(page - 1) * itemsPerPage + k], users, channels)
  {
    var m := FeedMatches(scores, users, channels, channelId, search, like, w, monthStart, now);
    var rows := Rows(m, users, channels);
    RowsNewestFirst(m, users, channels);
    PaginateSorted(rows, itemsPerPage, (page - 1) * itemsPerPage, RowTime);
    match Paginate(rows, itemsPerPage, (page - 1) * itemsPerPage)
    case Err(e) => Err(e)
    case Ok(slice) => Ok(Feed(|m|, slice))
  }

  /** Every match is on exactly the page its position says: match `i` is row `i % n` of
      page `i / n + 1` of `n` rows. */
  lemma FeedPagesCover(scores: seq<Score>, users: seq<User>, channels: seq<Channel>, n: int, search: string,
                       channelId: string, like: NameMatch, w: Window, monthStart: int, now: int, i: int)
    requires n > 0
    requires 0 <= i < |FeedMatches(scores, users, channels, channelId, search, like, w, monthStart, now)|
    ensures var r := GetKarmaFeed(scores, users, channels, n, i / n + 1, search, channelId, like, w, monthStart, now);
            var m := FeedMatches(scores, users, channels, channelId, search, like, w, monthStart, now);
            r.Ok? && i % n < |r.value.rows| && Some(r.value.rows[i % n]) == JoinRow(m[i], users, channels)
  {
    var m := FeedMatches(scores, users, channels, channelId, search, like, w, monthStart, now);
    var rows := Rows(m, users, channels);
    PagesCover(rows, n, i);
    var page := Paginate(rows, n, (i / n + 1 - 1) * n);
    assert GetKarmaFeed(scores, users, channels, n, i / n + 1, search, channelId, like, w, monthStart, now)
           == Ok(Feed(|m|, page.value));
  }

  /** `getName`: the display name of the first user whose handle is `username`, the row
      `getUserId` reads its id from. */
  function GetName(users: seq<User>, username: string): (r: Option<string>)
    ensures r.None? <==> GetUserId(users, username).None?
    ensures r.Some? ==> exists k :: 0 <= k < |users| && users[k].handle == username
                                    && users[k].name == r.value && users[k].id == GetUserId(users, username).value
  {
    if users == [] then None
    else if users[0].handle == username then Some(users[0].name)
    else
      var r := GetName(users[1..], username);
      assert r.Some? ==> exists k :: 0 <= k < |users| && users[k].handle == username && users[k].name == r.value
                                     && users[k].id == GetUserId(users, username).value by {
        if r.Some? {
          var k :| 0 <= k < |users[1..]| && users[1..][k].handle == username && users[1..][k].name == r.value
                   && users[1..][k].id == GetUserId(users[1..], username).value;
          assert users[k + 1] == users[1..][k];
        }
      }
      r
  }

  /** `getUserId`: the id of the first user whose handle is `username`. */
  function GetUserId(users: seq<User>, username: string): (r: Option<string>)
    ensures r.None? <==> forall k :: 0 <= k < |users| ==> users[k].handle != username
    ensures r.Some? ==> exists k :: 0 <= k < |users| && users[k].handle == username && users[k].id == r.value
  {
    if users == [] then None
    else if users[0].handle == username then Some(users[0].id)
    else
      var r := GetUserId(users[1..], username);
      assert r.Some? ==> exists k :: 0 <= k < |users| && users[k].handle == username && users[k].id == r.value by {
        if r.Some? {
          var k :| 0 <= k < |users[1..]| && users[1..][k].handle == username && users[1..][k].id == r.value;
          assert users[k + 1] == users[1..][k];
        }
      }
      r
  }

  /** `result[0].user_id` on an empty result: the query for an unknown handle fails. */
  const NO_SUCH_USER: string := "Cannot read properties of undefined (reading 'user_id')"

  /** `'from'` selects the votes the user received, `'to'` the votes the user gave, any other
      value (or none) both. */
  predicate InDirection(fromTo: string, userId: string, s: Score) {
    if fromTo == "from" then s.to == userId
    else if fromTo == "to" then s.from == userId
    else s.to == userId || s.from == userId
  }

  /** No channel, or `'all'`, means every channel; otherwise exactly that one. */
  predicate InChannel(channel: Option<string>, c: string) {
    channel.None? || channel.value == "all" || c == channel.value
  }

  /** `getAll`'s `WHERE`: joinable, in the direction and the channel, and for a non-empty
      search, with a voter or recipient name that matches it. */
  function AllScope(users: seq<User>, channels: seq<Channel>, userId: string, fromTo: string,
                    channel: Option<string>, search: string, like: NameMatch): Score -> bool
  {
    (s: Score) =>
      JoinRow(s, users, channels).Some? && InDirection(fromTo, userId, s) && InChannel(channel, s.channel)
      && (search == "" || like(JoinRow(s, users, channels).value.fromUser, search)
                       || like(JoinRow(s, users, channels).value.toUser, search))
  }

  function AllMatches(scores: seq<Score>, users: seq<User>, channels: seq<Channel>, userId: string,
                      fromTo: string, channel: Option<string>, search: string, like: NameMatch): seq<Score>
  {
    SelectSorted(scores, AllScope(users, channels, userId, fromTo, channel, search, like), Timestamp)
  }

  /** `getAll`: the user's votes newest first, paginated only when both `itemsPerPage` and
      `page` are given (non-zero); `count` ignores the pagination. */
  function GetAll(scores: seq<Score>, users: seq<User>, channels: seq<Channel>, username: string,
                  fromTo: string, channel: Option<string>, itemsPerPage: int, page: int, search: string,
                  like: NameMatch): (r: Result<Feed, string>)
    ensures GetUserId(users, username).None? ==> r == Err(NO_SUCH_USER)
    ensures GetUserId(users, username).Some? ==>
              (r.Err? <==> itemsPerPage != 0 && page != 0 && (itemsPerPage < 0 || (page - 1) * itemsPerPage < 0))
    ensures r.Ok? ==> SortedDesc(r.value.rows, RowTime)
    ensures r.Ok? ==>
              var m := AllMatches(scores, users, channels, GetUserId(users, username).value, fromTo, channel,
                                  search, like);
              r.value.count == |m|
              && ((itemsPerPage == 0 || page == 0) ==>
                    |r.value.rows| == |m|
                    && forall k :: 0 <= k < |m| ==> Some(r.value.rows[k]) == JoinRow(m[k], users, channels))
              && (itemsPerPage != 0 && page != 0 ==>
                    |r.value.rows| <= itemsPerPage
                    && forall k :: 0 <= k < |r.value.rows| ==>
                         (page - 1) * itemsPerPage + k < |m|
                         && Some(r.value.rows[k]) == JoinRow(m[(page - 1) * itemsPerPage + k], users, channels))
  {
    match GetUserId(users, username)
    case None => Err(NO_SUCH_USER)
    case Some(userId) =>
      var m := AllMatches(scores, users, channels, userId, fromTo, channel, search, like);
      var rows := Rows(m, users, channels);
      RowsNewestFirst(m, users, channels);
      if itemsPerPage != 0 && page != 0 then
        PaginateSorted(rows, itemsPerPage, (page - 1) * itemsPerPage, RowTime);
        match Paginate(rows, itemsPerPage, (page - 1) * itemsPerPage)
        case Err(e) => Err(e)
        case Ok(slice) => Ok(Feed(|m|, slice))
      else Ok(Feed(|m|, rows))
  }

  /** The votes `getAll` counts for a user in either direction and those it counts received
      plus given differ by the user's votes to themselves, which both of the latter count. */
  lemma EitherDirectionCount(scores: seq<Score>, users: seq<User>, channels: seq<Channel>, userId: string,
                             channel: Option<string>, search: string, like: NameMatch)
    ensures var both := |Select(scores, AllScope(users, channels, userId, "", channel, search, like))|;
            var received := |Select(scores, AllScope(users, channels, userId, "from", channel, search, like))|;
            var given := |Select(scores, AllScope(users, channels, userId, "to", channel, search, like))|;
            var selfVotes := |Select(scores, SelfScope(users, channels, userId, channel, search, like))|;
            both + selfVotes == received + given
  {
    var received := AllScope(users, channels, userId, "from", channel, search, like);
    var given := AllScope(users, channels, userId, "to", channel, search, like);
    var either := AllScope(users, channels, userId, "", channel, search, like);
    var self := SelfScope(users, channels, userId, channel, search, like);
    forall x: Score ensures either(x) == (received(x) || given(x)) && self(x) == (received(x) && given(x)) {
      assert InDirection("from", userId, x) == (x.to == userId);
      assert InDirection("to", userId, x) == (x.from == userId) by {
        assert "to" != "from";
      }
      assert InDirection("", userId, x) == (x.to == userId || x.from == userId) by {
        assert "" != "from" && "" != "to";
      }
    }
    SelectCounts(scores, received, given, either, self);
  }

  function SelfScope(users: seq<User>, channels: seq<Channel>, userId: string, channel: Option<string>,
                     search: string, like: NameMatch): Score -> bool
  {
    (s: Score) => AllScope(users, channels, userId, "", channel, search, like)(s) && s.to == userId && s.from == userId
  }

  // ---------------------------------------------------------------------------
  // insertUser's handle

  /** `userName.split(" ").join("").toLocaleLowerCase()`, for ASCII letters. */
  function Handle(name: string): (r: string)
    ensures |r| == |name| - multiset(name)[' ']
    ensures ' ' !in r
    ensures forall i :: 0 <= i < |r| ==> !IsAsciiUpper(r[i])
  {
    var squeezed := RemoveChar(name, ' ');
    var r := ToLower(squeezed);
    assert ' ' !in r by {
      forall i | 0 <= i < |r| ensures r[i] != ' ' {
        assert squeezed[i] in squeezed;
      }
    }
    r
  }

  /** The handle is built character by character, in order: the handle of a concatenation
      is the concatenation of the handles, a space vanishes and any other character is
      lower-cased. */
  lemma HandleConcat(a: string, b: string)
    ensures Handle(a + b) == Handle(a) + Handle(b)
    ensures forall x :: Handle([x]) == if x == ' ' then [] else [LowerChar(x)]
  {
    RemoveCharConcat(a, b, ' ');
    ToLowerConcat(RemoveChar(a, ' '), RemoveChar(b, ' '));
    forall x ensures Handle([x]) == if x == ' ' then [] else [LowerChar(x)] {
      RemoveCharOne(x, ' ');
    }
  }

  lemma ToLowerConcat(a: string, b: string)
    ensures ToLower(a + b) == ToLower(a) + ToLower(b)
  {
    assert forall i :: 0 <= i < |a| ==> (a + b)[i] == a[i];
    assert forall i :: |a| <= i < |a + b| ==> (a + b)[i] == b[i - |a|];
  }

  /** A handle is its own handle. */
  lemma HandleIdempotent(name: string)
    ensures Handle(Handle(name)) == Handle(name)
  {
    var h := Handle(name);
    RemoveCharAbsent(h, ' ');
    assert ToLower(h) == h;
  }

  /** Deleting rows keeps the ids unique and bounded. */
  lemma {:induction false} RemoveKeepsIds(scores: seq<Score>, id: nat, bound: nat)
    requires UniqueIds(scores) && forall k :: 0 <= k < |scores| ==> scores[k].id < bound
    ensures UniqueIds(RemoveId(scores, id))
    ensures forall k :: 0 <= k < |RemoveId(scores, id)| ==> RemoveId(scores, id)[k].id < bound
    decreases |scores|
  {
    if scores != [] {
      var init := scores[..|scores| - 1];
      var x := scores[|scores| - 1];
      assert scores == init + [x];
      RemoveKeepsIds(init, id, bound);
      var prev := RemoveId(init, id);
      forall k | 0 <= k < |prev| ensures prev[k].id != x.id {
        SelectMembers(init, IdIsNot(id), prev[k]);
        var j :| 0 <= j < |init| && init[j] == prev[k];
        assert scores[j].id != scores[|scores| - 1].id;
      }
    }
  }

  /** The user table once `checkUser` has run: as it was when the id is known, otherwise
      with the new user and its handle appended. */
  function WithUser(users: seq<User>, id: string, name: string): (r: seq<User>)
    ensures FindUser(r, id).Some?
    ensures users <= r && |r| <= |users| + 1
    ensures r == users <==> FindUser(users, id).Some?
  {
    if FindUser(users, id).Some? then users
    else
      var r := users + [User(id, name, Handle(name))];
      assert r[|users|].id == id;
      r
  }

  /** The channel table once `checkChannel` has run. */
  function WithChannel(channels: seq<Channel>, id: string, name: string): (r: seq<Channel>)
    ensures FindChannel(r, id).Some?
    ensures channels <= r && |r| <= |channels| + 1
    ensures r == channels <==> FindChannel(channels, id).Some?
  {
    if FindChannel(channels, id).Some? then channels
    else
      var r := channels + [Channel(id, name)];
      assert r[|channels|].id == id;
      r
  }

  // ---------------------------------------------------------------------------
  // The statements that change the tables

  /** The `user`, `channel` and `score` tables; `nextId` stands in for a fresh `uuid.v4()`. */
  class Store {
    var users: seq<User>
    var channels: seq<Channel>
    var scores: seq<Score>
    var nextId: nat

    /** The primary keys: `score_id`, `user_id` and `channel_id` are unique. */
    ghost predicate Valid()
      reads this
    {
      UniqueIds(scores) && (forall k :: 0 <= k < |scores| ==> scores[k].id < nextId)
      && (forall i, j :: 0 <= i < j < |users| ==> users[i].id != users[j].id)
      && (forall i, j :: 0 <= i < j < |channels| ==> channels[i].id != channels[j].id)
    }

    constructor ()
      ensures Valid() && users == [] && channels == [] && scores == []
    {
      users, channels, scores, nextId := [], [], [], 0;
    }

    /** `insertScore`: one new row stamped `now`, under an id no other row has. */
    method InsertScore(to: string, from: string, channel: string, description: Option<string>, now: int)
      requires Valid()
      modifies this
      ensures Valid()
      ensures scores == old(scores) + [Score(old(nextId), now, to, from, channel, description)]
      ensures forall k :: 0 <= k < |old(scores)| ==> old(scores)[k].id != old(nextId)
      ensures users == old(users) && channels == old(channels) && nextId == old(nextId) + 1
    {
      scores := scores + [Score(nextId, now, to, from, channel, description)];
      nextId := nextId + 1;
    }

    /** `removeLast`: deletes the row with that id, if there is one. */
    method RemoveLast(scoreId: nat)
      requires Valid()
      modifies this
      ensures Valid()
      ensures scores == RemoveId(old(scores), scoreId)
      ensures users == old(users) && channels == old(channels) && nextId == old(nextId)
    {
      RemoveKeepsIds(scores, scoreId, nextId);
      scores := RemoveId(scores, scoreId);
    }

    /** `updateScore`: records the vote and returns the recipient's new count in the
        channel, one more than before. */
    method UpdateScore(to: string, from: string, channel: string, description: Option<string>, now: int)
      returns (score: nat)
      requires Valid()
      modifies this
      ensures Valid()
      ensures scores == old(scores) + [Score(old(nextId), now, to, from, channel, description)]
      ensures users == old(users) && channels == old(channels) && nextId == old(nextId) + 1
      ensures score == UserScore(scores, to, channel) == UserScore(old(scores), to, channel) + 1
    {
      InsertScore(to, from, channel, description, now);
      UserScoreAppend(old(scores), Score(old(nextId), now, to, from, channel, description), to, channel);
      score := UserScore(scores, to, channel);
    }

    /** `undoScore`: deletes the voter's newest vote in the channel from the last
        `UNDO_TIME_LIMIT` seconds, whoever received it, and returns `to`'s count; with no such
        vote it changes nothing and returns nothing. */
    method UndoScore(from: string, to: string, channel: string, now: int) returns (score: Option<nat>)
      requires Valid()
      modifies this
      ensures Valid()
      ensures users == old(users) && channels == old(channels) && nextId == old(nextId)
      ensures var last := Last(old(scores), from, channel, now - UNDO_TIME_LIMIT);
              (last.None? ==> score.None? && scores == old(scores))
              && (last.Some? ==>
                    (exists i :: 0 <= i < |old(scores)| && old(scores)[i] == last.value
                                 && scores == old(scores)[..i] + old(scores)[i + 1..])
                    && scores == RemoveId(old(scores), last.value.id)
                    && score == Some(UserScore(scores, to, channel))
                    && score.value + (if last.value.to == to then 1 else 0) == UserScore(old(scores), to, channel))
    {
      var last := Last(scores, from, channel, now - UNDO_TIME_LIMIT);
      if last.None? {
        return None;
      }
      ghost var i :| 0 <= i < |scores| && scores[i] == last.value;
      RemoveUnique(scores, i);
      UserScoreRemoveAt(scores, i, to, channel);
      RemoveLast(last.value.id);
      score := Some(UserScore(scores, to, channel));
    }

    /** `insertUser`: adds the user with its derived handle; a second row with the same
        `user_id` is refused. */
    method InsertUser(userId: string, userName: string) returns (ok: bool)
      requires Valid()
      modifies this
      ensures Valid()
      ensures ok <==> FindUser(old(users), userId).None?
      ensures users == if ok then old(users) + [User(userId, userName, Handle(userName))] else old(users)
      ensures scores == old(scores) && channels == old(channels) && nextId == old(nextId)
    {
      if FindUser(users, userId).Some? {
        return false;
      }
      users := users + [User(userId, userName, Handle(userName))];
      ok := true;
    }

    /** `checkUser`: inserts the user only when no row has its id, and returns the id. */
    method CheckUser(userId: string, userName: string) returns (id: string)
      requires Valid()
      modifies this
      ensures Valid()
      ensures id == userId
      ensures users == WithUser(old(users), userId, userName)
      ensures scores == old(scores) && channels == old(channels) && nextId == old(nextId)
    {
      if FindUser(users, userId).None? {
        var _ := InsertUser(userId, userName);
        assert users[|users| - 1].id == userId;
      }
      id := userId;
    }

    /** `insertChannel`; a second row with the same `channel_id` is refused. */
    method InsertChannel(channelId: string, channelName: string) returns (ok: bool)
      requires Valid()
      modifies this
      ensures Valid()
      ensures ok <==> FindChannel(old(channels), channelId).None?
      ensures channels == if ok then old(channels) + [Channel(channelId, channelName)] else old(channels)
      ensures scores == old(scores) && users == old(users) && nextId == old(nextId)
    {
      if FindChannel(channels, channelId).Some? {
        return false;
      }
      channels := channels + [Channel(channelId, channelName)];
      ok := true;
    }

    /** `checkChannel`: inserts the channel only when no row has its id, and returns the id. */
    method CheckChannel(channelId: string, channelName: string) returns (id: string)
      requires Valid()
      modifies this
      ensures Valid()
      ensures id == channelId
      ensures channels == WithChannel(old(channels), channelId, channelName)
      ensures scores == old(scores) && users == old(users) && nextId == old(nextId)
    {
      if FindChannel(channels, channelId).None? {
        var _ := InsertChannel(channelId, channelName);
        assert channels[|channels| - 1].id == channelId;
      }
      id := channelId;
    }
  }
}
