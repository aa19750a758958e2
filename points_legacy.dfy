/**
 * The older JavaScript score store. Its tables, queries and statements mean the same as the
 * TypeScript store's (module Points) except for the daily vote count, which compares only
 * the day of the month, `DAY(timestamp) = new Date().getDate()`, so votes cast on the same
 * day of any earlier month count too.
 */
module PointsLegacy {
  import opened Queries
  import opened Points

  /** The day of the month (1 to 31) of the day numbered `days` from 1970-01-01 in the
      proleptic Gregorian calendar (the civil-from-days conversion, with years starting on
      1 March so that the leap day comes last). */
  function DayOfMonth(days: int): int {
    DayInMonth(DayOfYear(DayOfEra(days)))
  }

  /** The day within the 400-year era, 0 to 146096 (an era is 146097 days). */
  function DayOfEra(days: int): (doe: int)
    ensures 0 <= doe < 146097
  {
    (days + 719468) % 146097
  }

  /** The year within the era, 0 to 399. */
  function YearOfEra(doe: int): int {
    (doe - doe / 1460 + doe / 36524 - doe / 146096) / 365
  }

  /** The day within the March-based year, 0 to 365. */
  function DayOfYear(doe: int): int {
    doe - (365 * YearOfEra(doe) + YearOfEra(doe) / 4 - YearOfEra(doe) / 100)
  }

  /** The month of a day of the March-based year, 0 for March to 11 for February. */
  function MonthIndex(doy: int): int {
    (5 * doy + 2) / 153
  }

  /** The day of the month of a day of the March-based year. */
  function DayInMonth(doy: int): (d: int)
    ensures doy >= 0 ==> 1 <= d <= 31
  {
    doy - (153 * MonthIndex(doy) + 2) / 5 + 1
  }

  function VotedOnDayOfMonth(voter: string, today: int): Score -> bool {
    (s: Score) => s.from == voter && DayOfMonth(Day(s.timestamp)) == DayOfMonth(today)
  }

  /** `getDayilyVotesByUser` of the older store. */
  function LegacyDailyVotes(scores: seq<Score>, voter: string, today: int): nat {
    |Select(scores, VotedOnDayOfMonth(voter, today))|
  }

  /** `getDailyUserScore` of the older store: the same limit rule over its count. */
  function LegacyDailyUserScore(scores: seq<Score>, voter: string, limit: int, today: int): DailyCheck {
    LimitCheck(limit, LegacyDailyVotes(scores, voter, today))
  }

  /** Every vote cast today is cast on today's day of the month, so the older count is never
      smaller, and a vote it allows the newer rule allows too. */
  lemma LegacyCountsAtLeast(scores: seq<Score>, voter: string, limit: int, today: int)
    ensures LegacyDailyVotes(scores, voter, today) >= DailyVotes(scores, voter, today)
    ensures LegacyDailyUserScore(scores, voter, limit, today).operation ==>
              GetDailyUserScore(scores, voter, limit, today).operation
  {
    SelectMonotone(scores, VotedOn(voter, today), VotedOnDayOfMonth(voter, today));
  }

  /** 1970-01-01 and 1970-02-01 are both the first of their month. */
  lemma FirstOfTwoMonths()
    ensures DayOfMonth(0) == 1 && DayOfMonth(31) == 1
  {
    assert DayOfEra(0) == 135080;
    assert YearOfEra(135080) == 369;
    assert DayOfYear(135080) == 306;
    assert MonthIndex(306) == 10;
    assert DayInMonth(306) == 1;
    assert DayOfEra(31) == 135111;
    assert YearOfEra(135111) == 369;
    assert DayOfYear(135111) == 337;
    assert MonthIndex(337) == 11;
    assert DayInMonth(337) == 1;
  }

  /** A vote cast on 1970-01-01 counts against its voter's limit on 1970-02-01 in the older
      store and not in the newer one. */
  lemma LegacyCountsLastMonth(s: Score)
    requires Day(s.timestamp) == 0
    ensures LegacyDailyVotes([s], s.from, 31) == 1
    ensures DailyVotes([s], s.from, 31) == 0
  {
    FirstOfTwoMonths();
    assert [s][..0] == [];
  }
}
