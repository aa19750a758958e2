/**
 * The rest of a user's profile page (`getUserProfile` in the leaderboard source): who gave
 * the user their karma, and the day-by-day chart of karma received and given.
 */
module Profile {
  import opened Wrappers
  import opened Queries
  import opened Helpers
  import opened Points
  import opened Leaderboard

  /** A slice of the "karma divided" chart: a voter's name and how many of the user's
      received votes they gave. */
  datatype NameValue = NameValue(name: string, value: nat)

  /** A day of the activity chart (a day number, as `Day` counts them) with the votes the
      user received and gave on it. */
  datatype Activity = Activity(date: int, received: nat, sent: nat)

  /** What the profile request answers: the requested feed page, spread into the answer,
      then the fields added to it. */
  datatype ProfilePage = ProfilePage(feed: Feed, nameSurname: string, allKarma: nat, karmaGiven: nat,
                                     userRank: nat, karmaDivided: seq<NameValue>, activity: seq<Activity>)

  /** `channelId.split(',')` on a missing channel: the leaderboard query fails. */
  const SPLIT_UNDEFINED: string := "Cannot read properties of undefined (reading 'split')"

  // ---------------------------------------------------------------------------
  // Karma divided

  /** The voter of each received vote. */
  function Voters(rows: seq<FeedRow>): seq<string> {
    seq(|rows|, k requires 0 <= k < |rows| => rows[k].fromUser)
  }

  /** The names in order, each with the count `m` gives it. */
  function Tallied(names: seq<string>, m: multiset<string>): seq<NameValue> {
    seq(|names|, k requires 0 <= k < |names| => NameValue(names[k], m[names[k]]))
  }

  /** The specification of the chart: each voter once, in order of their first vote, with
      their number of votes. */
  function Divided(voters: seq<string>): seq<NameValue> {
    Tallied(Firsts(voters), multiset(voters))
  }

  function SumValues(xs: seq<NameValue>): nat {
    if xs == [] then 0 else SumValues(xs[..|xs| - 1]) + xs[|xs| - 1].value
  }

  lemma {:induction false} SumTallied(names: seq<string>, m: multiset<string>)
    ensures SumValues(Tallied(names, m)) == SumCounts(names, m)
  {
    if names != [] {
      var init := names[..|names| - 1];
      assert Tallied(names, m)[..|names| - 1] == Tallied(init, m);
      SumTallied(init, m);
    }
  }

  /** Every voter has exactly one slice, each slice counts its voter's votes and no slice is
      empty, and the values add up to the number of votes. */
  lemma DividedMeans(voters: seq<string>)
    ensures var d := Divided(voters);
            (forall i, j :: 0 <= i < j < |d| ==> d[i].name != d[j].name)
            && (forall k :: 0 <= k < |voters| ==> exists j :: 0 <= j < |d| && d[j].name == voters[k])
            && (forall j :: 0 <= j < |d| ==> d[j].value == multiset(voters)[d[j].name] > 0)
            && SumValues(d) == |voters|
  {
    DividedDistinct(voters);
    DividedCovers(voters);
    DividedValues(voters);
    DividedSum(voters);
  }

  lemma DividedDistinct(voters: seq<string>)
    ensures forall i, j :: 0 <= i < j < |Divided(voters)| ==> Divided(voters)[i].name != Divided(voters)[j].name
  {
    var names := Firsts(voters);
    var d := Divided(voters);
    forall i, j | 0 <= i < j < |d| ensures d[i].name != d[j].name {
      assert d[i].name == names[i] && d[j].name == names[j];
    }
  }

  lemma DividedCovers(voters: seq<string>)
    ensures forall k :: 0 <= k < |voters| ==>
              exists j :: 0 <= j < |Divided(voters)| && Divided(voters)[j].name == voters[k]
  {
    var names := Firsts(voters);
    var d := Divided(voters);
    forall k | 0 <= k < |voters| ensures exists j :: 0 <= j < |d| && d[j].name == voters[k] {
      var j :| 0 <= j < |names| && names[j] == voters[k];
      assert d[j].name == voters[k];
    }
  }

  lemma DividedValues(voters: seq<string>)
    ensures forall j :: 0 <= j < |Divided(voters)| ==>
              Divided(voters)[j].value == multiset(voters)[Divided(voters)[j].name] > 0
  {
    var names := Firsts(voters);
    var d := Divided(voters);
    forall j | 0 <= j < |d| ensures d[j].value == multiset(voters)[d[j].name] > 0 {
      assert d[j].name == names[j] && names[j] in voters;
    }
  }

  lemma DividedSum(voters: seq<string>)
    ensures SumValues(Divided(voters)) == |voters|
  {
    SumTallied(Firsts(voters), multiset(voters));
    SumCountsCovers(Firsts(voters), voters);
  }

  /** `count[fromUser] = (count[fromUser] || 0) + 1` over the received votes, then the
      entries of `count` as `{name, value}`. */
  method KarmaDivided(received: seq<FeedRow>) returns (divided: seq<NameValue>)
    ensures divided == Divided(Voters(received))
  {
    var voters := Voters(received);
    var order, counts := CountBy(voters);
    assert forall k :: 0 <= k < |order| ==> order[k] in counts by {
      forall k | 0 <= k < |order| ensures order[k] in counts {
        assert order[k] in voters;
      }
    }
    divided := seq(|order|, k requires 0 <= k < |order| => NameValue(order[k], counts[order[k]]));
    var spec := Divided(voters);
    assert |spec| == |divided|;
    forall k | 0 <= k < |divided| ensures divided[k] == spec[k] {
      assert spec[k] == NameValue(order[k], multiset(voters)[order[k]]);
    }
  }

  // ---------------------------------------------------------------------------
  // Activity by day

  /** The day of each vote: the date part of its ISO timestamp, on the same clock as `Day`. */
  function Days(rows: seq<FeedRow>): seq<int> {
    seq(|rows|, k requires 0 <= k < |rows| => Day(rows[k].timestamp))
  }

  function Dates(xs: seq<Activity>): seq<int> {
    seq(|xs|, k requires 0 <= k < |xs| => xs[k].date)
  }

  function Field(a: Activity, received: bool): nat {
    if received then a.received else a.sent
  }

  /** The received (or given) votes of the entries dated `d`, summed. */
  function FieldTotal(xs: seq<Activity>, d: int, received: bool): nat {
    if xs == [] then 0
    else FieldTotal(xs[..|xs| - 1], d, received) + (if xs[|xs| - 1].date == d then Field(xs[|xs| - 1], received) else 0)
  }

  function SumField(xs: seq<Activity>, received: bool): nat {
    if xs == [] then 0 else SumField(xs[..|xs| - 1], received) + Field(xs[|xs| - 1], received)
  }

  /** The sort key of `combineDates.sort((a, b) => a.date - b.date)`, as a descending key. */
  function EarliestFirst(a: Activity): int {
    -a.date
  }

  /** The specification of the chart: one entry per day with a vote, earliest first, with
      the votes received and given on that day. */
  ghost predicate ActivityOf(activity: seq<Activity>, inDays: seq<int>, outDays: seq<int>) {
    (forall i, j :: 0 <= i < j < |activity| ==> activity[i].date < activity[j].date)
    && (forall j :: 0 <= j < |activity| ==>
          activity[j].received == multiset(inDays)[activity[j].date]
          && activity[j].sent == multiset(outDays)[activity[j].date]
          && activity[j].received + activity[j].sent > 0)
    && (forall k :: 0 <= k < |inDays| ==> inDays[k] in Dates(activity))
    && (forall k :: 0 <= k < |outDays| ==> outDays[k] in Dates(activity))
  }

  lemma {:induction false} SumFieldCounts(xs: seq<Activity>, days: seq<int>, received: bool)
    requires forall j :: 0 <= j < |xs| ==> Field(xs[j], received) == multiset(days)[xs[j].date]
    ensures SumField(xs, received) == SumCounts(Dates(xs), multiset(days))
  {
    if xs != [] {
      var init := xs[..|xs| - 1];
      assert Dates(xs)[..|xs| - 1] == Dates(init);
      SumFieldCounts(init, days, received);
    }
  }

  /** The chart accounts for every vote: its received column adds up to the votes received,
      its given column to the votes given. */
  lemma ActivityTotals(activity: seq<Activity>, inDays: seq<int>, outDays: seq<int>)
    requires ActivityOf(activity, inDays, outDays)
    ensures SumField(activity, true) == |inDays| && SumField(activity, false) == |outDays|
  {
    var dates := Dates(activity);
    assert NoDuplicates(dates) by {
      forall i, j | 0 <= i < j < |dates| ensures dates[i] != dates[j] {
        assert activity[i].date < activity[j].date;
      }
    }
    SumFieldCounts(activity, inDays, true);
    SumCountsCovers(dates, inDays);
    SumFieldCounts(activity, outDays, false);
    SumCountsCovers(dates, outDays);
  }

  lemma FieldTotalSnoc(xs: seq<Activity>, x: Activity, d: int, received: bool)
    ensures FieldTotal(xs + [x], d, received) == FieldTotal(xs, d, received) + (if x.date == d then Field(x, received) else 0)
  {
    assert (xs + [x])[..|xs|] == xs;
  }

  lemma {:induction false} FieldTotalConcat(a: seq<Activity>, b: seq<Activity>, d: int, received: bool)
    ensures FieldTotal(a + b, d, received) == FieldTotal(a, d, received) + FieldTotal(b, d, received)
    decreases |b|
  {
    if b == [] {
      assert a + b == a;
    } else {
      var init := b[..|b| - 1];
      assert a + b == (a + init) + [b[|b| - 1]];
      FieldTotalSnoc(a + init, b[|b| - 1], d, received);
      FieldTotalConcat(a, init, d, received);
    }
  }

  lemma {:induction false} FieldTotalAbsent(xs: seq<Activity>, d: int, received: bool)
    requires d !in Dates(xs)
    ensures FieldTotal(xs, d, received) == 0
  {
    if xs != [] {
      var init := xs[..|xs| - 1];
      assert Dates(xs) == Dates(init) + [xs[|xs| - 1].date];
      FieldTotalAbsent(init, d, received);
    }
  }

  lemma {:induction false} FieldTotalZero(xs: seq<Activity>, d: int, received: bool)
    requires forall k :: 0 <= k < |xs| ==> Field(xs[k], received) == 0
    ensures FieldTotal(xs, d, received) == 0
  {
    if xs != [] {
      FieldTotalZero(xs[..|xs| - 1], d, received);
    }
  }

  lemma {:induction false} FieldTotalOnce(xs: seq<Activity>, d: int, received: bool, j: nat)
    requires NoDuplicates(Dates(xs)) && j < |xs| && xs[j].date == d
    ensures FieldTotal(xs, d, received) == Field(xs[j], received)
  {
    var init := xs[..|xs| - 1];
    assert Dates(init) == Dates(xs)[..|xs| - 1];
    if j == |xs| - 1 {
      assert d !in Dates(init) by {
        forall k | 0 <= k < |init| ensures Dates(init)[k] != d {
          assert Dates(xs)[k] != Dates(xs)[j];
        }
      }
      FieldTotalAbsent(init, d, received);
    } else {
      assert NoDuplicates(Dates(init)) by {
        forall p, q | 0 <= p < q < |init| ensures Dates(init)[p] != Dates(init)[q] {
          assert Dates(xs)[p] != Dates(xs)[q];
        }
      }
      assert Dates(xs)[|xs| - 1] != Dates(xs)[j];
      FieldTotalOnce(init, d, received, j);
    }
  }

  /** One direction's chart, `Object.entries(count).map(...)`: its days are the distinct
      days in order, its column counts each day's votes and the other column is 0. */
  lemma ChartFacts(chart: seq<Activity>, order: seq<int>, counts: map<int, nat>, days: seq<int>, received: bool)
    requires order == Firsts(days)
    requires forall x :: x in counts ==> counts[x] == multiset(days)[x]
    requires forall k :: 0 <= k < |order| ==> order[k] in counts
    requires |chart| == |order|
    requires forall k :: 0 <= k < |order| ==>
               chart[k].date == order[k] && Field(chart[k], received) == counts[order[k]] && Field(chart[k], !received) == 0
    ensures forall k :: 0 <= k < |days| ==> days[k] in Dates(chart)
    ensures forall k :: 0 <= k < |chart| ==> chart[k].date in multiset(days)
    ensures forall d, f :: FieldTotal(chart, d, f) == if f == received then multiset(days)[d] else 0
  {
    assert Dates(chart) == order;
    forall d, f ensures FieldTotal(chart, d, f) == if f == received then multiset(days)[d] else 0 {
      FieldTotalZero(chart, d, !received);
      if d in order {
        var j :| 0 <= j < |order| && order[j] == d;
        FieldTotalOnce(chart, d, received, j);
      } else {
        FieldTotalAbsent(chart, d, received);
        assert d !in multiset(days);
      }
    }
  }

  /** `b` maps each combined day to its entry in `combined`, and the entries sum the votes of
      `seen` day by day. */
  ghost predicate Combined(seen: seq<Activity>, b: map<int, nat>, combined: seq<Activity>) {
    (forall d :: d in b ==> b[d] < |combined| && combined[b[d]].date == d)
    && (forall j :: 0 <= j < |combined| ==> combined[j].date in b && b[combined[j].date] == j)
    && (forall k :: 0 <= k < |seen| ==> seen[k].date in b)
    && (forall j :: 0 <= j < |combined| ==> combined[j].date in Dates(seen))
    && (forall j :: 0 <= j < |combined| ==>
          combined[j].received == FieldTotal(seen, combined[j].date, true)
          && combined[j].sent == FieldTotal(seen, combined[j].date, false))
  }

  /** Adding a vote to a day that already has an entry: that entry, and only it, grows. */
  lemma CombinedBump(seen: seq<Activity>, b: map<int, nat>, combined: seq<Activity>, oa: Activity, c: seq<Activity>)
    requires Combined(seen, b, combined) && oa.date in b && b[oa.date] < |combined|
    requires var j := b[oa.date];
             c == combined[j := Activity(oa.date, combined[j].received + oa.received, combined[j].sent + oa.sent)]
    ensures Combined(seen + [oa], b, c)
  {
    var d, j := oa.date, b[oa.date];
    var seen' := seen + [oa];
    assert Dates(seen') == Dates(seen) + [d];
    forall k | 0 <= k < |seen'| ensures seen'[k].date in b {
      if k < |seen| {
        assert seen'[k] == seen[k];
      }
    }
    forall k | 0 <= k < |c|
      ensures c[k].date in Dates(seen')
      ensures c[k].received == FieldTotal(seen', c[k].date, true) && c[k].sent == FieldTotal(seen', c[k].date, false)
    {
      var e := c[k].date;
      FieldTotalSnoc(seen, oa, e, true);
      FieldTotalSnoc(seen, oa, e, false);
      if k != j {
        assert combined[k].date != d by {
          assert b[combined[k].date] == k;
        }
      }
    }
  }

  /** Adding a vote to a day with no entry yet: a new entry for that day holds it. */
  lemma CombinedNew(seen: seq<Activity>, b: map<int, nat>, combined: seq<Activity>, oa: Activity,
                    b': map<int, nat>, c: seq<Activity>)
    requires Combined(seen, b, combined) && oa.date !in b
    requires b' == b[oa.date := |combined|]
    requires c == combined + [Activity(oa.date, oa.received, oa.sent)]
    ensures Combined(seen + [oa], b', c)
  {
    var d, seen' := oa.date, seen + [oa];
    assert Dates(seen') == Dates(seen) + [d];
    assert d !in Dates(seen) by {
      forall k | 0 <= k < |seen| ensures Dates(seen)[k] != d {
        assert seen[k].date in b;
      }
    }
    FieldTotalAbsent(seen, d, true);
    FieldTotalAbsent(seen, d, false);
    forall k | 0 <= k < |seen'| ensures seen'[k].date in b' {
      if k < |seen| {
        assert seen'[k] == seen[k];
      }
    }
    forall e | e in b' ensures b'[e] < |c| && c[b'[e]].date == e {
      if e != d {
        assert c[b[e]] == combined[b[e]];
      }
    }
    forall k | 0 <= k < |c|
      ensures c[k].date in b' && b'[c[k].date] == k
      ensures c[k].date in Dates(seen')
      ensures c[k].received == FieldTotal(seen', c[k].date, true) && c[k].sent == FieldTotal(seen', c[k].date, false)
    {
      var e := c[k].date;
      FieldTotalSnoc(seen, oa, e, true);
      FieldTotalSnoc(seen, oa, e, false);
      if k < |combined| {
        assert c[k] == combined[k];
        assert e != d;
      }
    }
  }

  /** One step of the combining loop: the entry for `oa`'s day, created empty if it is
      new, gets `oa`'s votes added. */
  method CombineOne(ghost seen: seq<Activity>, b: map<int, nat>, combined: seq<Activity>, oa: Activity)
    returns (b': map<int, nat>, combined': seq<Activity>)
    requires Combined(seen, b, combined)
    ensures Combined(seen + [oa], b', combined')
  {
    var d := oa.date;
    if d !in b {
      b' := b[d := |combined|];
      combined' := combined + [Activity(d, 0, 0)];
    } else {
      assert b[d] < |combined|;
      b' := b;
      combined' := combined;
    }
    var j := b'[d];
    combined' := combined'[j := Activity(d, combined'[j].received + oa.received, combined'[j].sent + oa.sent)];
    if d !in b {
      assert combined' == combined + [Activity(d, oa.received, oa.sent)];
      CombinedNew(seen, b, combined, oa, b', combined');
    } else {
      CombinedBump(seen, b, combined, oa, combined');
    }
  }

  /** `for (date in sentReceived)`: one entry per day, in order of first appearance, summing
      the votes of that day. */
  method CombineDates(sentReceived: seq<Activity>) returns (combined: seq<Activity>)
    ensures NoDuplicates(Dates(combined))
    ensures forall j :: 0 <= j < |combined| ==>
              combined[j].received == FieldTotal(sentReceived, combined[j].date, true)
              && combined[j].sent == FieldTotal(sentReceived, combined[j].date, false)
    ensures forall j :: 0 <= j < |combined| ==> combined[j].date in Dates(sentReceived)
    ensures forall k :: 0 <= k < |sentReceived| ==> sentReceived[k].date in Dates(combined)
  {
    var b: map<int, nat> := map[];
    combined := [];
    for i := 0 to |sentReceived|
      invariant Combined(sentReceived[..i], b, combined)
    {
      assert sentReceived[..i + 1] == sentReceived[..i] + [sentReceived[i]];
      b, combined := CombineOne(sentReceived[..i], b, combined, sentReceived[i]);
    }
    assert sentReceived[..|sentReceived|] == sentReceived;
    forall k | 0 <= k < |sentReceived| ensures sentReceived[k].date in Dates(combined) {
      assert Dates(combined)[b[sentReceived[k].date]] == sentReceived[k].date;
    }
    forall p, q | 0 <= p < q < |Dates(combined)| ensures Dates(combined)[p] != Dates(combined)[q] {
      assert b[combined[p].date] == p && b[combined[q].date] == q;
    }
  }

  /** A permutation of entries with distinct days has distinct days. */
  lemma DistinctDatesPermutation(a: seq<Activity>, r: seq<Activity>)
    requires NoDuplicates(Dates(a)) && multiset(a) == multiset(r)
    ensures NoDuplicates(Dates(r))
  {
    assert NoDuplicates(a) by {
      forall i, j | 0 <= i < j < |a| ensures a[i] != a[j] {
        assert Dates(a)[i] != Dates(a)[j];
      }
    }
    NoDuplicatesPermutation(a, r);
    forall i, j | 0 <= i < j < |r| ensures Dates(r)[i] != Dates(r)[j] {
      assert r[i] in multiset(a) && r[j] in multiset(a);
      var p :| 0 <= p < |a| && a[p] == r[i];
      var q :| 0 <= q < |a| && a[q] == r[j];
      if p != q {
        assert Dates(a)[p] != Dates(a)[q];
      }
    }
  }

  /** One direction's chart: the days counted with `CountBy`, then
      `Object.entries(count).map(([key, value]) => ...)` with the count in that direction's
      column and 0 in the other. */
  method Chart(days: seq<int>, received: bool) returns (chart: seq<Activity>)
    ensures forall k :: 0 <= k < |days| ==> days[k] in Dates(chart)
    ensures forall k :: 0 <= k < |chart| ==> chart[k].date in multiset(days)
    ensures forall d, f :: FieldTotal(chart, d, f) == if f == received then multiset(days)[d] else 0
  {
    var order, counts := CountBy(days);
    assert forall k :: 0 <= k < |order| ==> order[k] in counts;
    chart := seq(|order|, k requires 0 <= k < |order| =>
                   if received then Activity(order[k], counts[order[k]], 0) else Activity(order[k], 0, counts[order[k]]));
    ChartFacts(chart, order, counts, days, received);
  }

  /** The concatenation of the two charts counts both directions. */
  lemma ConcatFacts(inDays: seq<int>, outDays: seq<int>, chartIn: seq<Activity>, chartOut: seq<Activity>)
    requires forall k :: 0 <= k < |inDays| ==> inDays[k] in Dates(chartIn)
    requires forall k :: 0 <= k < |chartIn| ==> chartIn[k].date in multiset(inDays)
    requires forall d, f :: FieldTotal(chartIn, d, f) == if f then multiset(inDays)[d] else 0
    requires forall k :: 0 <= k < |outDays| ==> outDays[k] in Dates(chartOut)
    requires forall k :: 0 <= k < |chartOut| ==> chartOut[k].date in multiset(outDays)
    requires forall d, f :: FieldTotal(chartOut, d, f) == if f then 0 else multiset(outDays)[d]
    ensures var sr := chartIn + chartOut;
            (forall d :: FieldTotal(sr, d, true) == multiset(inDays)[d] && FieldTotal(sr, d, false) == multiset(outDays)[d])
            && (forall k :: 0 <= k < |sr| ==> sr[k].date in multiset(inDays) || sr[k].date in multiset(outDays))
            && (forall k :: 0 <= k < |inDays| ==> inDays[k] in Dates(sr))
            && (forall k :: 0 <= k < |outDays| ==> outDays[k] in Dates(sr))
  {
    var sr := chartIn + chartOut;
    assert Dates(sr) == Dates(chartIn) + Dates(chartOut);
    forall d ensures FieldTotal(sr, d, true) == multiset(inDays)[d] && FieldTotal(sr, d, false) == multiset(outDays)[d] {
      FieldTotalConcat(chartIn, chartOut, d, true);
      FieldTotalConcat(chartIn, chartOut, d, false);
    }
    forall k | 0 <= k < |sr| ensures sr[k].date in multiset(inDays) || sr[k].date in multiset(outDays) {
      if k >= |chartIn| {
        assert sr[k] == chartOut[k - |chartIn|];
      }
    }
  }

  /** The chart, computed as the profile does: a count per day in each direction, the two
      lists concatenated, combined by day and sorted by date. */
  method CombineActivity(inDays: seq<int>, outDays: seq<int>) returns (activity: seq<Activity>)
    ensures ActivityOf(activity, inDays, outDays)
  {
    var chartIn := Chart(inDays, true);
    var chartOut := Chart(outDays, false);
    var sentReceived := chartIn + chartOut;
    ConcatFacts(inDays, outDays, chartIn, chartOut);
    var combined := CombineDates(sentReceived);
    activity := SortDesc(combined, EarliestFirst);
    SortedChart(inDays, outDays, sentReceived, combined, activity);
  }

  /** The facts `CombineActivity` gathers about the concatenated charts, the combined list
      and its sorted copy, assembled into its specification. */
  lemma SortedChart(inDays: seq<int>, outDays: seq<int>, sr: seq<Activity>, combined: seq<Activity>,
                    activity: seq<Activity>)
    requires forall d :: FieldTotal(sr, d, true) == multiset(inDays)[d] && FieldTotal(sr, d, false) == multiset(outDays)[d]
    requires forall k :: 0 <= k < |sr| ==> sr[k].date in multiset(inDays) || sr[k].date in multiset(outDays)
    requires forall k :: 0 <= k < |inDays| ==> inDays[k] in Dates(sr)
    requires forall k :: 0 <= k < |outDays| ==> outDays[k] in Dates(sr)
    requires NoDuplicates(Dates(combined))
    requires forall j :: 0 <= j < |combined| ==>
               combined[j].received == FieldTotal(sr, combined[j].date, true)
               && combined[j].sent == FieldTotal(sr, combined[j].date, false)
    requires forall j :: 0 <= j < |combined| ==> combined[j].date in Dates(sr)
    requires forall k :: 0 <= k < |sr| ==> sr[k].date in Dates(combined)
    requires SortedDesc(activity, EarliestFirst) && multiset(activity) == multiset(combined)
    ensures ActivityOf(activity, inDays, outDays)
  {
    ChartAscending(combined, activity);
    forall j | 0 <= j < |activity|
      ensures activity[j].received == multiset(inDays)[activity[j].date]
              && activity[j].sent == multiset(outDays)[activity[j].date]
              && activity[j].received + activity[j].sent > 0
    {
      ChartEntryCounts(inDays, outDays, sr, combined, activity[j]);
    }
    forall k | 0 <= k < |inDays| ensures inDays[k] in Dates(activity) {
      DateReachesActivity(inDays[k], sr, combined, activity);
    }
    forall k | 0 <= k < |outDays| ensures outDays[k] in Dates(activity) {
      DateReachesActivity(outDays[k], sr, combined, activity);
    }
  }

  /** Sorting entries with distinct days earliest first puts the days in strictly
      increasing order. */
  lemma ChartAscending(combined: seq<Activity>, activity: seq<Activity>)
    requires NoDuplicates(Dates(combined))
    requires SortedDesc(activity, EarliestFirst) && multiset(activity) == multiset(combined)
    ensures forall i, j :: 0 <= i < j < |activity| ==> activity[i].date < activity[j].date
  {
    DistinctDatesPermutation(combined, activity);
    forall i, j | 0 <= i < j < |activity| ensures activity[i].date < activity[j].date {
      assert Dates(activity)[i] != Dates(activity)[j];
      assert EarliestFirst(activity[i]) >= EarliestFirst(activity[j]);
    }
  }

  /** An entry of the combined list holds its day's votes in each direction, and at
      least one. */
  lemma ChartEntryCounts(inDays: seq<int>, outDays: seq<int>, sr: seq<Activity>, combined: seq<Activity>,
                         a: Activity)
    requires forall d :: FieldTotal(sr, d, true) == multiset(inDays)[d] && FieldTotal(sr, d, false) == multiset(outDays)[d]
    requires forall k :: 0 <= k < |sr| ==> sr[k].date in multiset(inDays) || sr[k].date in multiset(outDays)
    requires forall j :: 0 <= j < |combined| ==>
               combined[j].received == FieldTotal(sr, combined[j].date, true)
               && combined[j].sent == FieldTotal(sr, combined[j].date, false)
    requires forall j :: 0 <= j < |combined| ==> combined[j].date in Dates(sr)
    requires a in multiset(combined)
    ensures a.received == multiset(inDays)[a.date] && a.sent == multiset(outDays)[a.date]
    ensures a.received + a.sent > 0
  {
    var p :| 0 <= p < |combined| && combined[p] == a;
    var k :| 0 <= k < |sr| && Dates(sr)[k] == a.date;
    assert sr[k].date == a.date;
  }

  /** A day of the concatenated charts reaches the sorted chart. */
  lemma DateReachesActivity(d: int, sr: seq<Activity>, combined: seq<Activity>, activity: seq<Activity>)
    requires d in Dates(sr)
    requires forall k :: 0 <= k < |sr| ==> sr[k].date in Dates(combined)
    requires multiset(activity) == multiset(combined)
    ensures d in Dates(activity)
  {
    var i :| 0 <= i < |sr| && Dates(sr)[i] == d;
    var p :| 0 <= p < |combined| && Dates(combined)[p] == d;
    assert combined[p] in multiset(activity);
    var q :| 0 <= q < |activity| && activity[q] == combined[p];
    assert Dates(activity)[q] == d;
  }

  // ---------------------------------------------------------------------------
  // The profile page

  /** A feed queried without a page holds every match. */
  lemma UnpagedFeed(scores: seq<Score>, users: seq<User>, channels: seq<Channel>, username: string, fromTo: string,
                    channel: Option<string>, like: NameMatch)
    requires GetUserId(users, username).Some?
    ensures var f := GetAll(scores, users, channels, username, fromTo, channel, 0, 0, "", like);
            f.Ok? && |f.value.rows| == f.value.count
  {
  }

  /** `getUserProfile`: with no channel the leaderboard query fails and for an unknown
      handle the user lookup does; otherwise the requested feed page, the user's name, the
      number of votes received and given, the user's rank on the leaderboard of the channel
      scope (0 when the user has no votes there), who gave the received votes, and the
      day-by-day chart. The charts account for every vote counted. */
  method GetUserProfile(scores: seq<Score>, users: seq<User>, channels: seq<Channel>, username: string,
                        fromTo: string, channel: Option<string>, itemsPerPage: int, page: int, search: string,
                        like: NameMatch, userName: string -> string, now: int)
    returns (r: Result<ProfilePage, string>)
    ensures channel.None? ==> r == Err(SPLIT_UNDEFINED)
    ensures channel.Some? && GetUserId(users, username).None? ==> r == Err(NO_SUCH_USER)
    ensures channel.Some? && GetUserId(users, username).Some? ==>
              (r.Err? <==> GetAll(scores, users, channels, username, fromTo, channel, itemsPerPage, page, search, like).Err?)
    ensures r.Ok? ==>
              var userId := GetUserId(users, username).value;
              var received := GetAll(scores, users, channels, username, "from", channel, 0, 0, "", like).value;
              var given := GetAll(scores, users, channels, username, "to", channel, 0, 0, "", like).value;
              var tops := GetAllScores(scores, ProfileWindow(), channel.value, now);
              r.value.feed == GetAll(scores, users, channels, username, fromTo, channel, itemsPerPage, page, search, like).value
              && Some(r.value.nameSurname) == GetName(users, username)
              && r.value.allKarma == received.count && r.value.karmaGiven == given.count
              && ((forall j :: 0 <= j < |tops| ==> tops[j].item != userId) ==> r.value.userRank == 0)
              && (forall j :: 0 <= j < |tops| && tops[j].item == userId ==> r.value.userRank == Rank(tops, j))
              && r.value.karmaDivided == Divided(Voters(received.rows))
              && ActivityOf(r.value.activity, Days(received.rows), Days(given.rows))
    ensures r.Ok? ==>
              SumValues(r.value.karmaDivided) == r.value.allKarma
              && SumField(r.value.activity, true) == r.value.allKarma
              && SumField(r.value.activity, false) == r.value.karmaGiven
  {
    if channel.None? {
      return Err(SPLIT_UNDEFINED);
    }
    var tops := GetAllScores(scores, ProfileWindow(), channel.value, now);
    var ranked := RankItems(tops, "users", Object, userName, IsUser);
    var userId := GetUserId(users, username);
    if userId.None? {
      return Err(NO_SUCH_USER);
    }
    var userRank := UserRank(ranked, userId.value);
    var nameSurname := GetName(users, username);
    // `karmaScore` and `activityChartIn` are the same query, as are `karmaGiven` and
    // `activityChartOut`.
    UnpagedFeed(scores, users, channels, username, "from", channel, like);
    UnpagedFeed(scores, users, channels, username, "to", channel, like);
    var karmaScore := GetAll(scores, users, channels, username, "from", channel, 0, 0, "", like).value;
    var karmaGiven := GetAll(scores, users, channels, username, "to", channel, 0, 0, "", like).value;
    var allItems := GetAll(scores, users, channels, username, fromTo, channel, itemsPerPage, page, search, like);
    if allItems.Err? {
      return Err(allItems.error);
    }
    var karmaDivided := KarmaDivided(karmaScore.rows);
    var activity := CombineActivity(Days(karmaScore.rows), Days(karmaGiven.rows));
    UsersKeepsAll(tops, IsUser);
    ProfileRankIs(ranked, tops, userName, IsUser, userId.value);
    DividedMeans(Voters(karmaScore.rows));
    ActivityTotals(activity, Days(karmaScore.rows), Days(karmaGiven.rows));
    r := Ok(ProfilePage(allItems.value, nameSurname.value, karmaScore.count, karmaGiven.count, userRank,
                        karmaDivided, activity));
  }
}
