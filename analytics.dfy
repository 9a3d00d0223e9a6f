/** The analytics dashboard: visitor totals, the five most viewed pages of
    the latest thousand page views, seven days of sessions and page views,
    and the day-on-day growth of sessions. */
module Analytics {
  import opened Prelude
  import opened Sorting
  import opened Tally

  const MaxFetchedViews: nat := 1000
  const MaxTopPages: nat := 5
  const MsPerDay: int := 86_400_000

  // ---------------------------------------------------------------------
  // Top pages

  /** The rows the top-pages query returns: the newest thousand views. */
  function FetchedViews(pathsNewestFirst: seq<string>): (r: seq<string>)
    ensures |r| <= MaxFetchedViews && |r| <= |pathsNewestFirst|
    ensures r == pathsNewestFirst[..|r|]
  {
    Take(pathsNewestFirst, MaxFetchedViews)
  }

  /** `pageStats`: per path, the number of fetched rows with that path; no
      data at all counts as no rows. */
  function PageStats(rows: Option<seq<string>>): (r: seq<Entry<string>>)
    ensures rows.None? ==> r == []
    ensures rows.Some? ==> Keys(r) == Distinct(rows.value)
    ensures rows.Some? ==> forall path :: CountOf(r, path) == multiset(rows.value)[path]
  {
    TallyCounts(if rows.Some? then rows.value else []);
    TallyOf(if rows.Some? then rows.value else [])
  }

  function Views(e: Entry<string>): real
  {
    e.count as real
  }

  /** The entries by views, highest first, before the cut. */
  function ByViews(stats: seq<Entry<string>>): (r: seq<Entry<string>>)
    ensures SortedDescBy(r, Views)
    ensures multiset(r) == multiset(stats) && |r| == |stats|
  {
    SortDescBy(Entries(stats), Views)
  }

  /** `topPages`: the entries by views, highest first, cut to five. */
  function TopPages(rows: Option<seq<string>>): (r: seq<Entry<string>>)
    ensures |r| <= MaxTopPages
    ensures SortedDescBy(r, Views)
    ensures forall i :: 0 <= i < |r| ==> r[i] in PageStats(rows)
    ensures |PageStats(rows)| <= MaxTopPages ==> multiset(r) == multiset(PageStats(rows))
  {
    var sorted := ByViews(PageStats(rows));
    CutFacts(sorted, PageStats(rows));
    Take(sorted, MaxTopPages)
  }

  lemma CutFacts(sorted: seq<Entry<string>>, stats: seq<Entry<string>>)
    requires SortedDescBy(sorted, Views)
    requires multiset(sorted) == multiset(stats) && |sorted| == |stats|
    ensures SortedDescBy(Take(sorted, MaxTopPages), Views)
    ensures forall i :: 0 <= i < |Take(sorted, MaxTopPages)| ==> Take(sorted, MaxTopPages)[i] in stats
    ensures |stats| <= MaxTopPages ==> Take(sorted, MaxTopPages) == sorted
  {
    forall i | 0 <= i < |Take(sorted, MaxTopPages)| ensures Take(sorted, MaxTopPages)[i] in stats {
      PermutationMembers(sorted, stats, i);
    }
  }

  /** Each listed page shows the number of fetched views of that path. */
  lemma TopPageCounts(rows: seq<string>, i: int)
    requires 0 <= i < |TopPages(Some(rows))|
    ensures TopPages(Some(rows))[i].count == multiset(rows)[TopPages(Some(rows))[i].key]
    ensures TopPages(Some(rows))[i].key in rows
  {
    TallyEntry(rows, TopPages(Some(rows))[i]);
  }

  /** With no data the list is empty, and the page shows its placeholder. */
  lemma NoDataNoTopPages()
    ensures TopPages(None) == []
  {
  }

  /** A page left off the list has no more views than any listed page,
      and it is left off only when the list is full. */
  lemma OmittedPagesViewedLess(rows: Option<seq<string>>, e: Entry<string>)
    requires e in PageStats(rows) && e !in TopPages(rows)
    ensures |TopPages(rows)| == MaxTopPages
    ensures forall i :: 0 <= i < |TopPages(rows)| ==> TopPages(rows)[i].count >= e.count
  {
    var sorted := ByViews(PageStats(rows));
    assert e in multiset(PageStats(rows));
    assert e in multiset(sorted);
    var k :| 0 <= k < |sorted| && sorted[k] == e;
    assert TopPages(rows) == Take(sorted, MaxTopPages);
    forall i | 0 <= i < |TopPages(rows)| ensures TopPages(rows)[i].count >= e.count {
      assert TopPages(rows)[i] == sorted[i];
      assert Views(sorted[i]) >= Views(sorted[k]);
    }
  }

  // ---------------------------------------------------------------------
  // Daily statistics

  /** The UTC calendar day of a time in milliseconds, as
      `toISOString().split('T')[0]` names it. */
  function DayOf(ms: int): int
  {
    ms / MsPerDay
  }

  /** Going back whole days goes back that many calendar days. */
  lemma DayBack(now: int, i: int)
    ensures DayOf(now - i * MsPerDay) == DayOf(now) - i
  {
    var q, r := now / MsPerDay, now % MsPerDay;
    assert now == q * MsPerDay + r && 0 <= r < MsPerDay;
    assert now - i * MsPerDay == (q - i) * MsPerDay + r;
  }

  function DaysOf(times: seq<int>): (r: seq<int>)
    ensures |r| == |times|
    ensures forall i :: 0 <= i < |times| ==> r[i] == DayOf(times[i])
  {
    seq(|times|, i requires 0 <= i < |times| => DayOf(times[i]))
  }

  /** One bar of the activity chart; the day is shown as its month and day. */
  datatype DayStat = DayStat(day: int, sessions: nat, pageviews: nat)

  /** The bar of one day: the number of sessions started and pages viewed
      on that day, 0 when there were none. */
  function StatFor(day: int, sessionDays: seq<int>, viewDays: seq<int>): (d: DayStat)
    ensures d.day == day
    ensures d.sessions == multiset(sessionDays)[day] && d.pageviews == multiset(viewDays)[day]
  {
    TallyCountOf(sessionDays, day);
    TallyCountOf(viewDays, day);
    DayStat(day, CountOf(TallyOf(sessionDays), day), CountOf(TallyOf(viewDays), day))
  }

  function OrEmpty<T>(s: Option<seq<T>>): seq<T>
  {
    if s.Some? then s.value else []
  }

  /** `dailyStats`: the last seven days, `Array.from` counting back from
      today and then reversed, so the oldest day comes first. */
  function DailyStats(now: int, sessionStarts: Option<seq<int>>, viewTimes: Option<seq<int>>): (r: seq<DayStat>)
    ensures |r| == 7
    ensures forall j :: 0 <= j < 7 ==> r[j] == StatFor(DayOf(now) - 6 + j, DaysOf(OrEmpty(sessionStarts)), DaysOf(OrEmpty(viewTimes)))
  {
    var sessionDays, viewDays := DaysOf(OrEmpty(sessionStarts)), DaysOf(OrEmpty(viewTimes));
    var back := CountingBack(now, sessionDays, viewDays);
    var r := Reverse(back);
    forall j | 0 <= j < 7 ensures r[j] == StatFor(DayOf(now) - 6 + j, sessionDays, viewDays) {
      assert r[j] == back[6 - j];
    }
    r
  }

  /** The seven bars as `Array.from` builds them: today first, then one day
      further back at a time. */
  function CountingBack(now: int, sessionDays: seq<int>, viewDays: seq<int>): (back: seq<DayStat>)
    ensures |back| == 7
    ensures forall i :: 0 <= i < 7 ==> back[i] == StatFor(DayOf(now) - i, sessionDays, viewDays)
  {
    seq(7, i requires 0 <= i < 7 => StatFor(DaysBack(now, i), sessionDays, viewDays))
  }

  /** The day `now - i * 24 * 60 * 60 * 1000` falls on. */
  function DaysBack(now: int, i: int): (d: int)
    ensures d == DayOf(now) - i
  {
    DayBack(now, i);
    DayOf(now - i * MsPerDay)
  }

  function Reverse<T>(s: seq<T>): (r: seq<T>)
    ensures |r| == |s|
    ensures forall j :: 0 <= j < |s| ==> r[j] == s[|s| - 1 - j]
  {
    seq(|s|, j requires 0 <= j < |s| => s[|s| - 1 - j])
  }

  // ---------------------------------------------------------------------
  // Growth

  function IntToString(n: int): string
  {
    if n < 0 then "-" + NatToString(-n) else NatToString(n)
  }

  /** The growth figure: the last day's sessions over the day before's
      (a zero day before counts as one), less one, as a rounded
      percentage; fewer than two days give none. */
  function Growth(stats: seq<DayStat>): (g: Option<int>)
    ensures g.Some? <==> |stats| >= 2
  {
    if |stats| > 1 then
      var last := stats[|stats| - 1].sessions;
      var before := stats[|stats| - 2].sessions;
      Some(Round((last as real / Base(before) as real - 1.0) * 100.0))
    else None
  }

  /** The growth card: `+` and the figure and `%`, or `+0%`. */
  function GrowthLabel(stats: seq<DayStat>): (s: string)
    ensures Growth(stats).None? ==> s == "+0%"
    ensures Growth(stats).Some? ==> s == "+" + IntToString(Growth(stats).value) + "%"
  {
    match Growth(stats)
    case None => "+0%"
    case Some(g) => "+" + IntToString(g) + "%"
  }

  /** The day before, as the divisor: at least one. */
  function Base(before: nat): (b: nat)
    ensures b >= 1 && (before >= 1 ==> b == before)
  {
    if before == 0 then 1 else before
  }

  /** The sign of the growth follows the comparison of the last day with
      the divisor, and equal days give exactly zero. */
  lemma GrowthSign(stats: seq<DayStat>)
    requires |stats| >= 2
    ensures var last, base := stats[|stats| - 1].sessions, Base(stats[|stats| - 2].sessions);
      (last >= base ==> Growth(stats).value >= 0)
      && (last == base ==> Growth(stats).value == 0)
      && (last < base ==> Growth(stats).value <= 0)
  {
    var last, base := stats[|stats| - 1].sessions, Base(stats[|stats| - 2].sessions);
    var ratio := last as real / base as real;
    var x := (ratio - 1.0) * 100.0;
    assert ratio * base as real == last as real;
    RoundOfInt(0);
    if last >= base {
      assert ratio >= 1.0;
      RoundMonotone(0.0, x);
    }
    if last < base {
      assert ratio < 1.0;
      RoundMonotone(x, 0.0);
    }
    if last == base {
      assert ratio == 1.0;
    }
  }

  /** Two days without sessions read "+-100%": an empty day before counts
      as one session, and the plus sign is written whatever the sign of the
      figure. */
  lemma QuietDaysShowMinusHundred(a: DayStat, b: DayStat)
    requires a.sessions == 0 && b.sessions == 0
    ensures GrowthLabel([a, b]) == "+-100%"
  {
    assert (0 as real / 1 as real - 1.0) * 100.0 == -100.0;
    RoundOfInt(-100);
    assert Growth([a, b]) == Some(-100);
    assert NatToString(100) == "100";
  }

  // ---------------------------------------------------------------------
  // The page

  /** What one refresh reads: the three counts (missing when a query fails),
      the newest page-view paths, and the start and view times since seven
      days ago. */
  datatype Queries = Queries(
    totalSessions: Option<nat>,
    activeSessions: Option<nat>,
    totalPageViews: Option<nat>,
    recentPaths: Option<seq<string>>,
    sessionStarts: Option<seq<int>>,
    viewTimes: Option<seq<int>>)

  datatype AnalyticsData = AnalyticsData(
    totalSessions: nat,
    activeSessions: nat,
    totalPageViews: nat,
    averageSessionTime: nat,
    topPages: seq<Entry<string>>,
    dailyStats: seq<DayStat>)

  function CountOrZero(c: Option<nat>): (n: nat)
  {
    if c.Some? then c.value else 0
  }

  /** The data one refresh installs. */
  function DataOf(q: Queries, now: int): (d: AnalyticsData)
    ensures d.averageSessionTime == 0
    ensures |d.topPages| <= MaxTopPages && |d.dailyStats| == 7
    ensures q.totalSessions.None? ==> d.totalSessions == 0
  {
    var rows := if q.recentPaths.Some? then Some(FetchedViews(q.recentPaths.value)) else None;
    AnalyticsData(CountOrZero(q.totalSessions), CountOrZero(q.activeSessions), CountOrZero(q.totalPageViews), 0,
                  TopPages(rows), DailyStats(now, q.sessionStarts, q.viewTimes))
  }

  const EmptyData := AnalyticsData(0, 0, 0, 0, [], [])

  class Page {
    var data: AnalyticsData
    var loading: bool

    constructor()
      ensures data == EmptyData && loading
    {
      data := EmptyData;
      loading := true;
    }

    /** One run of `fetchAnalyticsData`: a refresh that completes installs
        its data, one that throws keeps the old data; loading ends either way. */
    method Fetch(result: Option<Queries>, now: int)
      modifies this
      ensures result.Some? ==> data == DataOf(result.value, now)
      ensures result.None? ==> data == old(data)
      ensures !loading
    {
      loading := true;
      if result.Some? {
        data := DataOf(result.value, now);
      }
      loading := false;
    }
  }

  /** `location.state?.from || '/'`. */
  function AnalyticsReferrer(from: Option<string>): (r: string)
    ensures from.Some? && from.value != "" ==> r == from.value
    ensures from.None? || from == Some("") ==> r == "/"
  {
    OrElse(if from.Some? then from.value else "", "/")
  }
}
